# PayKH, verified

A model of the parts of PayKH whose correctness is hard to see from one function: the points engine and
its double-entry ledger, the payment life cycle under concurrent callers, the KHQR codec, the money
arithmetic, and four small stateful cores. Everything is stated for all inputs, all runs or all
interleavings. `dafny verify dfyconfig.toml` checks the whole project.

## How it is built

Code that updates tables is a class whose methods make the same writes in the same order; each method is
proved equal to a step function on values. The invariants, refinements and round trips are then proved
about the step functions, over every sequence of steps.

- **Points.** `Fifo` holds the log formula and the explicit queue of lots it refines. `PointsLedger` ties
  rows to journals. `PointsEngine` (file `Points.dfy`) is the state machine of all points paths, `PointsPaths`
  what each path does seen from outside, and `Loyalty` the services on mutable tables. `Notices` is the expiry
  warning.
- **Ledger and reconciliation.** `Ledger` is the journal and its only writer. `Grouping` says what a grouped
  query returns, in any order. `Reconciliation` is the trial balance and the drift report, `Backfill` the
  repair of points journals, `MoneyBackfill` that of captures and refunds.
- **Money.** `Fees` (captures, refunds and their dust), `Payouts` (file `Payout.dfy`), `Amount`. Amounts are
  whole units of a ten-thousandth; rounding is half up, away from zero at ties.
- **Protocols.** `Payments` and `Idempotency` are threads that read a snapshot and later commit a guarded
  write; a run is any sequence of their steps. `Games` is the same for the prize draw.
- **KHQR.** `Crc`, `Tlv`, `Khqr`, `KhqrException` and `KhqrMock` work on strings of 16-bit code units, with the
  EMVCo Merchant-Presented QR data objects and the checksum with polynomial 0x1021 and initial value 0xFFFF.
  `KhqrFormat` states the format in its own digits, for the builder and the parser alike.
- **Small cores.** `ValueProvider`, `Base32` (section 6 of RFC 4648) and `RateLimit`.

## What the code does not do

Where a promise of the source fails, the code is kept as it is and the exact condition is proved.

- A dollar capture can be refused as unbalanced: fee and net both round up when cents times rate is 50
  modulo 100 (`Fees.CaptureAcceptedPerCurrency`, `Fees.CaptureCanBeRefused`, `Amount.AcceptedAmountsAreCaptured`).
  The posting is best effort, so such a payment is paid but missing from the books.
- A refund slice can be refused for the same reason, also of a payment whose capture was booked; the
  settlement account then stays off by exactly the refused slices (`Fees.RefundOutcome`,
  `Fees.RefundCanBeRefused`, `Fees.RefundDustBounded`).
- The effects of being paid run after the commit, so a caller that stops in between leaves a paid payment
  without them; they never run twice (`Payments.EffectsRanIff`, `Payments.EffectsCanBeLost`,
  `Payments.PaidAtMostOnce`).
- A points warning can name a day before any of the announced points expire (`Notices.AnnouncedDayIsRightIff`,
  `Notices.AnnouncedDayCanBeEarly`).
- The backfill doubles a manual positive adjustment that carries the reserved reason and already has its
  journal, and books one without a journal to points_settled (`Backfill.BackfillIsExactIff`,
  `Backfill.BackfillContraIff`, `Backfill.BackfillCanDoubleBook`, `Backfill.BackfillCanMisbook`).
- The money backfill is safe to run again, but books refunds twice that were booked live, and never gets past a
  payment whose fee is a tie (`MoneyBackfill.RefundsAreRightIff`, `MoneyBackfill.RefundBookedTwice`,
  `MoneyBackfill.CompletesIff`).
- A KHQR code whose checksum happens to be 6304 is refused by the parser, which searches for the last such
  text (`Khqr.AcceptedIff`, `KhqrException.ChecksumExceptionIsReal`).
- A manual payout below half a ledger unit is marked PAID without being booked (`Payouts.PayoutBookedIff`,
  `Payouts.PayoutCanGoUnbooked`).
- The value provider takes a burn for a replay of a redemption with the same key and amount
  (`ValueProvider.SameLinesIff`, `ValueProvider.BurnReplaysRedemption`).
- The comment on the loyalty balance cap speaks of an adjustment that takes the balance below what age
  arithmetic implies; on every reachable log the cap never applies (`Fifo.AtRiskIsFifo`).

## Model

| member | source | states |
|---|---|---|
| `Fifo.ConsumeTakesOldest` | apps/api/src/loyalty/loyalty.service.ts:243-248 | consuming points from the explicit queue of lots takes them from the oldest lots first: for every cutoff, what is left from before it falls by the consumption and not below zero, and the queue stays in order |
| `Fifo.ReplayMirrors` | apps/api/src/loyalty/loyalty.service.ts:289-303 | for every time-ordered log that never overdraws, the replayed lot queue is ordered, holds the running balance, and holds from before any cutoff what the two sums of the formula say |
| `Fifo.AtRiskIsFifo` | apps/api/src/loyalty/loyalty.service.ts:289-303 | the aggregate formula equals the points left in lots created before the cutoff, for every time-ordered log that never overdraws, and its cap by the balance is then redundant |
| `Fifo.ExpiryRemovesOldLots` | apps/api/src/loyalty/loyalty.service.ts:305-341 | after the EXPIRE row the replayed queue is the old queue without the lots from before the cutoff |
| `Fifo.ExpiryComposes` | apps/api/src/loyalty/loyalty.service.ts:250-251 | for any log and balance, expiring at one cutoff and then at a later one removes the same total as expiring at the later one once; at one cutoff the second pass removes nothing |
| `Fifo.WarningIsHonest` | apps/api/src/loyalty/loyalty.service.ts:380-393 | the warned amount is exactly what the later sweep takes after today's, is never negative, and a positive one always has an earn that is not yet due, so the guard on a missing date never fires |
| `Notices.OldestIsOldest` | apps/api/src/loyalty/loyalty.service.ts:390-392 | the notice is dated by the earliest earn that is not yet due, and there is none exactly when no earn falls between the cutoffs |
| `Notices.WarningHasDate` | apps/api/src/loyalty/loyalty.service.ts:385-393 | a positive warning always has such an earn |
| `Notices.AnnouncedDayIsRightIff` | apps/api/src/loyalty/loyalty.service.ts:387-394 | the earn that dates the notice is the oldest lot still alive in the window exactly when consumption has not used up everything earned until then; otherwise the date is too early, never too late |
| `Notices.AnnouncedDayCanBeEarly` | apps/api/src/loyalty/loyalty.service.ts:387-394 | 100 earned, 100 spent, 50 earned: the notice is dated by the spent earn |
| `Notices.NoticeBook.NotifyExpiring` | apps/api/src/loyalty/loyalty.service.ts:374-425 | the loop adds notices for exactly the customers with a positive warning not yet noticed for that day, each with the true amount, keeps every old notice, and returns how many it added and the total they announce |
| `Notices.WarnedOnce` | apps/api/src/loyalty/loyalty.service.ts:387-407 | running it again over the same logs and cutoffs warns nobody |
| `PointsLedger.PostPointsBooksOnce` | apps/api/src/ledger/ledger.service.ts:183-222 | a points journal is never refused: it is booked once per row and movement, and a repeat changes nothing |
| `PointsLedger.JournalEffectOfRow` | apps/api/src/ledger/ledger.service.ts:166-181 | what one points journal does to any balance: the liability moves by the signed points of that customer, and the account that the table of the source names for the reason and the sign moves the other way |
| `PointsLedger.LedgerMirrorsRows` | apps/api/src/ledger/ledger.service.ts:229-245 | on live books the ledger position of every customer, store and points account is exactly the corresponding sum over the rows |
| `PointsLedger.ContraRows` | apps/api/src/ledger/ledger.service.ts:166-176 | every contra account by the rows that stand against it, told by kind, sign and cause, per store |
| `PointsEngine.RecordKeepsBooks` | apps/api/src/loyalty/loyalty.service.ts:537-549 | one movement that does not overdraw keeps rows, columns and journals in agreement |
| `PointsEngine.StepKeepsBooks` | apps/api/src/loyalty/loyalty.service.ts:189-227 | every step of the engine (award, promotion, prize, referral, redeem, adjust, voucher, cancel, fulfil, expire, money posting) keeps the whole invariant |
| `PointsEngine.ThreeWayAgreement` | apps/api/src/ledger/reconciliation.service.ts:182-239 | after any sequence of steps each balance column is non-negative and equals the sum of the customer's rows and the customer's points_liability position; lifetime points are the earns; a store's liability is the sum of its rows |
| `PointsEngine.SettledIsRedeemed` | apps/api/src/ledger/ledger.service.ts:164-176 | after any sequence of steps points_settled equals raw redemptions plus vouchers not cancelled |
| `PointsEngine.ContraAccountsByCause` | apps/api/src/ledger/ledger.service.ts:166-176 | after any sequence of steps, per store: points_expense carries what earns and upward adjustments that cancel nothing gave, points_settled what redemptions took less what cancellations gave back, points_breakage what expiries and downward adjustments took |
| `PointsPaths.EveryRowHasItsJournal` | apps/api/src/ledger/ledger.service.ts:183-222 | after any sequence of steps every row with points has its own journal, named after what happened, with the customer on the liability line and the account of the table on the other, and no second one refers to it |
| `PointsPaths.EveryRowWasAsked` | apps/api/src/loyalty/loyalty.service.ts:537-549 | after any sequence of steps every row was asked for by a step of the run, of exactly that customer, kind, time and number of points |
| `PointsPaths.StepDoes` | apps/api/src/loyalty/loyalty.service.ts:189-227 | every step of every run does to the tables exactly what its path says: when it succeeds, what it refuses, who gains or loses how much, and what is left alone |
| `PointsPaths.AwardDoes` | apps/api/src/loyalty/loyalty.service.ts:194-226 | a payment not yet earned on gives the customer exactly the earned points, on the balance and for life; any other changes nothing; a stranger or a taken id is refused |
| `PointsPaths.PromoDoes` | apps/api/src/campaigns/campaigns.service.ts:233-252 | a promotion of the store that is active and has budget left pays the bonus or what is left of the budget, counts it as spent, and ends exactly when the budget is used up |
| `PointsPaths.PrizeDoes` | apps/api/src/games/games.service.ts:210-223 | a points prize gives the customer exactly its points |
| `PointsPaths.ReferralDoes` | apps/api/src/referrals/referrals.service.ts:199-234 | the referrer gains the referrer's points and the referee the referee's, once, and neither while flagged or when one of the two cannot be written |
| `PointsPaths.MutateDoes` | apps/api/src/loyalty/loyalty.service.ts:537-549 | a balance mutation succeeds exactly for a customer of the store whose balance stays non-negative; then exactly the points asked for are moved in one row of the kind asked for, lifetime points and everybody else untouched; otherwise nothing changes |
| `PointsPaths.RedeemAndAdjustDo` | apps/api/src/loyalty/loyalty.service.ts:492-506 | a redemption takes as many points as were named, whatever their sign; an adjustment moves them as they are |
| `PointsPaths.RedeemDoes` | apps/api/src/loyalty/loyalty.service.ts:668-696 | a reward is redeemed exactly when it is the store's, active and in stock, and the customer is the store's and holds its cost; the customer then pays the cost, a finite stock falls by one and a voucher is issued |
| `PointsPaths.CancelDoes` | apps/api/src/loyalty/loyalty.service.ts:746-763 | a voucher is cancelled exactly while it is issued; the customer then gets back what was paid and a finite stock rises by one |
| `PointsPaths.FulfillDoes` | apps/api/src/loyalty/loyalty.service.ts:737-743 | only an issued voucher is fulfilled, and nothing but its status changes |
| `PointsPaths.ExpireDoes` | apps/api/src/loyalty/loyalty.service.ts:305-341 | an expiry takes what is at risk, in one row, from that customer only, and reports it |
| `PointsEngine.BudgetIsACap` | apps/api/src/campaigns/campaigns.service.ts:233-250 | no promotion ever spends more than its budget |
| `PointsEngine.ReachableExpiryIsFifo` | apps/api/src/loyalty/loyalty.service.ts:305-341 | in every state reachable under a clock that does not run back, expiring a customer takes exactly the points in lots before the cutoff and removes exactly those lots from the replayed queue |
| `PointsEngine.AwardedOnce` | apps/api/src/loyalty/loyalty.service.ts:197-199 | a payment that earned base points never does again, whatever steps come in between and whatever the second call asks |
| `PointsEngine.StockIsConserved` | apps/api/src/loyalty/loyalty.service.ts:686-692 | over any run a finite stock plus the vouchers holding a unit of it is constant and the stock is never negative; an unlimited stock stays unlimited |
| `PointsEngine.CancelUndoesRedemption` | apps/api/src/loyalty/loyalty.service.ts:746-763 | a cancellation right after the redemption restores all customers, all stocks and every points balance of the ledger |
| `PointsEngine.CancelGivesBack` | apps/api/src/loyalty/loyalty.service.ts:746-763 | a cancellation after any further steps succeeds exactly while the voucher is issued, and gives the customer, every points balance and a finite stock exactly what the redemption took |
| `PointsEngine.CancelledForGood` | apps/api/src/loyalty/loyalty.service.ts:751 | once cancelled, in any continuation, no further cancellation changes anything |
| `Loyalty.LoyaltyService.Commit` | apps/api/src/loyalty/loyalty.service.ts:213-226 | row, column and journal of one movement are written together; balance and, for an earn, lifetime points move by exactly the points of the row |
| `Loyalty.EarnedWithin` | apps/api/src/loyalty/loyalty.service.ts:194-206 | the two floors never favour the customer and cost less than the multiplier plus one point |
| `Loyalty.EarnedExactly` | apps/api/src/loyalty/loyalty.service.ts:194-206 | the points are the floor of the multiplier times the floor of amount times rate, and none when that base is not positive |
| `Loyalty.LoyaltyService.AwardForPayment` | apps/api/src/loyalty/loyalty.service.ts:189-227 | the earned points from amount, rate and tier multiplier; the customer gains exactly those when the payment is new, and on every other path nothing changes |
| `Loyalty.OfferedBonusWithin` | apps/api/src/campaigns/campaigns.service.ts:228-231 | a bonus is the floor of what its rule promises: for a multiplier, base and bonus together are within one point below base times factor; nothing when a condition fails |
| `Loyalty.LoyaltyService.QuoteBonus` | apps/api/src/campaigns/campaigns.service.ts:223-231 | the loop body quotes such a bonus under schedule, minimum amount, segment and rule |
| `Loyalty.LoyaltyService.ApplyPromotion` | apps/api/src/campaigns/campaigns.service.ts:223-254 | one promotion: its conditions, capped by the remaining budget, ended exactly when the budget is spent; the answer is what the customer gained |
| `Loyalty.OffersKeepBooks` | apps/api/src/campaigns/campaigns.service.ts:222-256 | the promotions loop keeps the books and every budget, and its total is exactly what the customer's balance and lifetime points gained, also when a transaction fails on the way |
| `Loyalty.OffersPay` | apps/api/src/campaigns/campaigns.service.ts:222-256 | for a customer of the store, over different promotions and free ids, none fails, each pays its bonus as far as its own budget goes, and the total is the sum of what they pay |
| `Loyalty.LoyaltyService.ApplyToPayment` | apps/api/src/campaigns/campaigns.service.ts:208-257 | the loop over promotions applies them one after the other, stops at the first failed transaction, keeps the books, returns exactly what the customer gained, and over different promotions the sum of what each pays |
| `Loyalty.LoyaltyService.EarnForPayment` | apps/api/src/loyalty/loyalty.service.ts:189-234 | base points first, then the promotions on top, and none when no base points were awarded |
| `Loyalty.LoyaltyService.CreditPrize` | apps/api/src/games/games.service.ts:210-223 | the customer gains exactly the points of the prize; a stranger or a taken id is refused with nothing written |
| `Loyalty.LoyaltyService.OnPaidPayment` | apps/api/src/referrals/referrals.service.ts:199-234 | each side gains its own points, once, or neither when one write fails |
| `Loyalty.LoyaltyService.MutateIn` | apps/api/src/loyalty/loyalty.service.ts:537-549 | succeeds exactly when the customer is of the store, the balance stays non-negative and the id is free; then that balance moves by exactly what was asked, in one row of that kind; otherwise nothing changes |
| `Loyalty.LoyaltyService.Redeem` | apps/api/src/loyalty/loyalty.service.ts:492-494 | takes exactly as many points as were named, whatever their sign |
| `Loyalty.LoyaltyService.Adjust` | apps/api/src/loyalty/loyalty.service.ts:496-506 | moves exactly the points that were named |
| `Loyalty.LoyaltyService.RedeemForReward` | apps/api/src/loyalty/loyalty.service.ts:668-696 | points, stock and voucher move together, exactly when reward, stock, customer, balance and id allow it |
| `Loyalty.LoyaltyService.CancelRedemption` | apps/api/src/loyalty/loyalty.service.ts:747-763 | the reversal, exactly while the voucher is issued, of exactly what was paid |
| `Loyalty.LoyaltyService.FulfillRedemption` | apps/api/src/loyalty/loyalty.service.ts:737-743 | an issued voucher becomes fulfilled and nothing else changes |
| `Loyalty.LoyaltyService.ExpireOne` | apps/api/src/loyalty/loyalty.service.ts:305-341 | one customer's expiry takes exactly what is at risk and reports it |
| `Loyalty.LoyaltyService.ExpireForStore` | apps/api/src/loyalty/loyalty.service.ts:265-277 | the sweep loop with its counters; one customer's failure does not stop the rest |
| `Loyalty.ExpireOneIsExact` | apps/api/src/loyalty/loyalty.service.ts:305-341 | takes exactly what is at risk, leaves nothing at risk, and changes nobody else's column or log |
| `Loyalty.SweepIsExact` | apps/api/src/loyalty/loyalty.service.ts:253-278 | a sweep takes from each listed customer exactly what was at risk, reports exactly that many customers and points, and leaves stores, lifetime points and everyone else alone |
| `Loyalty.SweepIsIdempotent` | apps/api/src/loyalty/loyalty.service.ts:250-251 | a second sweep at the same cutoff changes nothing and reports zero |
| `Ledger.LedgerStore.Post` | apps/api/src/ledger/ledger.service.ts:61-91 | rounds, refuses an unbalanced journal, skips an empty or duplicate one, appends otherwise; keeps the stored journals balanced and one per (event, reference) |
| `Ledger.RoundsToNearest` | apps/api/src/ledger/ledger.service.ts:61-66 | an amount is rounded to the nearest unit, and of two to the one further from zero |
| `Ledger.PostKeepsLedger` | apps/api/src/ledger/ledger.service.ts:56-91 | posting keeps every stored journal balanced and unique and only appends |
| `Ledger.LedgerIsZeroSum` | apps/api/src/ledger/ledger.service.ts:56-71 | after any requests, accepted or not, every journal and every per-currency trial balance, of a store or of the platform, nets to exactly zero and no (event, reference) is booked twice |
| `Ledger.LedgerOnlyGrows` | apps/api/src/ledger/ledger.service.ts:56-60 | entries are never updated or deleted |
| `Ledger.WellKeptBalances` | apps/api/src/ledger/reconciliation.service.ts:33-61 | on balanced journals debits equal credits exactly in every scope |
| `Ledger.PositionByDirection` | apps/api/src/ledger/ledger.service.ts:229-245 | credits minus debits, taken from the two grouped sums, is the position |
| `Grouping.GroupsAddUp` | apps/api/src/ledger/reconciliation.service.ts:36 | whatever order and grouping the store returns, the group sums add up to the sum over the grouped rows |
| `Reconciliation.TrialBalance` | apps/api/src/ledger/reconciliation.service.ts:33-61 | every account row, its balance on the normal side of the account and every currency total is true; the balance flag is exactly the tolerance test; on well-kept books the totals are equal |
| `Reconciliation.PointsDrift` | apps/api/src/ledger/reconciliation.service.ts:193-239 | ok exactly when every customer in scope agrees with the ledger and the listed balances add up to the liability; names exactly the customers that disagree, although idle customers are not listed |
| `Reconciliation.MirroredBooksAgree` | apps/api/src/ledger/reconciliation.service.ts:193-239 | columns that are the sums of their rows, listed in any order, agree with the ledger as soon as the journals are the live ones |
| `Reconciliation.ReachableBooksHaveNoDrift` | apps/api/src/ledger/reconciliation.service.ts:193-239 | after any sequence of points steps the report is clean for every scope |
| `Backfill.PageIsSlice` | apps/api/src/ledger/reconciliation.service.ts:268-274 | the cursor query returns the next 500 confirmed rows in id order, without gap or overlap |
| `Backfill.ConfirmedIff` | apps/api/src/ledger/reconciliation.service.ts:265-272 | the rows visited are exactly the confirmed ones of the table |
| `Backfill.WithPointsCounts` | apps/api/src/ledger/reconciliation.service.ts:276-292 | the count of posted rows is that of the rows with points |
| `Backfill.BackfillPoints` | apps/api/src/ledger/reconciliation.service.ts:259-294 | the cursor loop visits each confirmed row exactly once, replays it into the ledger, and counts what it scanned, posted and skipped |
| `Backfill.InferredIsLiveIff` | apps/api/src/ledger/reconciliation.service.ts:251-282 | the movement inferred from the columns is the one the live path posts exactly when the row is not a manual positive adjust under the reserved reason |
| `Backfill.BackfillRestoresLiveJournals` | apps/api/src/ledger/reconciliation.service.ts:241-257 | from any subset of the live journals the backfill ends with exactly the live journals if and only if no confirmed row is ambiguous |
| `Backfill.BackfillIsIdempotent` | apps/api/src/ledger/reconciliation.service.ts:246-249 | from any journals and rows at all, the backfill rewrites none and a second run adds nothing |
| `Backfill.BackfillRemovesDrift` | apps/api/src/ledger/reconciliation.service.ts:296-302 | when the columns are the sums of the confirmed rows, in whatever order their ids sort, and the journals were any subset of the live ones, the drift report afterwards is clean exactly when no ambiguous row in scope had its journal before |
| `Backfill.BackfillAndReport` | apps/api/src/ledger/reconciliation.service.ts:259-302 | the loop followed by the report: the counters, the journals, and ok exactly under that condition |
| `Backfill.BackfillRepairsReachableBooks` | apps/api/src/ledger/reconciliation.service.ts:241-302 | after any run of the points engine, whatever points journals were lost and however the ids sort, the backfill restores the live journals and a clean report in every scope, provided no manual positive adjust used the reserved reason |
| `Backfill.BackfillIsExactIff` | apps/api/src/ledger/reconciliation.service.ts:251-282 | for all rows and every scope: the liability afterwards is the sum of rows plus the points booked twice, so it is right exactly when no ambiguous row of the scope had its journal before |
| `Backfill.BackfillContraIff` | apps/api/src/ledger/reconciliation.service.ts:280-285 | the contra accounts afterwards, for all rows and scopes: breakage is always right; points_settled is off by all ambiguous points, so right exactly when there are none; points_expense by those without their journal, so right exactly when every ambiguous row had one |
| `Backfill.BackfillCanDoubleBook` | apps/api/src/ledger/reconciliation.service.ts:280-285 | a goodwill adjust of 40 points under the reserved reason that has its journal: the repair doubles its liability |
| `Backfill.BackfillCanMisbook` | apps/api/src/ledger/reconciliation.service.ts:280-285 | the same row without its journal: the repair puts its points on points_settled, where the live books have none |
| `MoneyBackfill.BackfillMoney` | apps/api/src/ledger/reconciliation.service.ts:91-107 | the loop over paid payments: capture, refund of the refunded total, counters, and the stop at an unbalanced journal |
| `MoneyBackfill.CompletesIff` | apps/api/src/ledger/reconciliation.service.ts:99-107 | it gets through exactly when neither the amount nor the refunded total of any payment is a tie |
| `MoneyBackfill.CountsAreTrue` | apps/api/src/ledger/reconciliation.service.ts:101-112 | the counters: of a completed run every payment and every one with a refund; of one that stopped those before the payment it stopped at |
| `MoneyBackfill.AllArePresent` | apps/api/src/ledger/reconciliation.service.ts:87-107 | a completed run leaves every payment with its capture and its backfilled refund |
| `MoneyBackfill.MissingCapturesAreBooked` | apps/api/src/ledger/reconciliation.service.ts:101-107 | a completed run books every missing capture, of the payment's own amount, store and currency |
| `MoneyBackfill.SafeToRerun` | apps/api/src/ledger/reconciliation.service.ts:87-90 | run again, whether it completed or stopped, it posts nothing, counts the same and stops where it did |
| `MoneyBackfill.BackfillAddsRefunded` | apps/api/src/ledger/reconciliation.service.ts:103-104 | what a completed run adds to the refunds booked of each payment: the whole refunded total, unless it was backfilled before |
| `MoneyBackfill.RefundsAreRightIff` | apps/api/src/ledger/reconciliation.service.ts:103-104 | the books then show what was refunded exactly when no refund of the payment was booked under its own id before its first backfill |
| `MoneyBackfill.RefundBookedTwice` | apps/api/src/ledger/reconciliation.service.ts:103-104 | for every payment whose refund was booked live the backfill books it a second time |
| `MoneyBackfill.HalfDollarBookedTwice` | apps/api/src/ledger/reconciliation.service.ts:103-104 | a dollar of which half was refunded: the books show the whole of it refunded |
| `Fees.SplitUnits` | apps/api/src/ledger/ledger.service.ts:95-98 | rounded fee plus rounded net is the gross, or one unit more exactly at a tie |
| `Fees.CaptureOutcome` | apps/api/src/ledger/ledger.service.ts:95-104 | a capture is refused as unbalanced exactly at a tie, is a no-op when already booked, and is posted otherwise |
| `Fees.CaptureAcceptedPerCurrency` | apps/api/src/ledger/ledger.service.ts:95-104 | every whole-riel amount can be captured; a cent amount exactly when cents times rate is not 50 modulo 100 |
| `Fees.CaptureCanBeRefused` | apps/api/src/ledger/ledger.service.ts:66-71 | one cent at 50 basis points is refused as unbalanced |
| `Fees.CaptureEffect` | apps/api/src/ledger/ledger.service.ts:95-104 | what a new capture does to every account of the store, refused or not |
| `Fees.RefundOutcome` | apps/api/src/ledger/ledger.service.ts:111-120 | a refund slice too is refused as unbalanced exactly at a tie, is a no-op when already booked, and is posted otherwise |
| `Fees.RefundEffect` | apps/api/src/ledger/ledger.service.ts:111-120 | what a new refund slice does to every account of the store: it takes back what its capture would have moved, and nothing when it is refused |
| `Fees.RefundCanBeRefused` | apps/api/src/ledger/ledger.service.ts:66-71 | two cents captured at 50 basis points and refunded cent by cent: both refunds are refused and settlement_clearing stays off by 200 units |
| `Fees.FeesError` | apps/api/src/ledger/ledger.service.ts:111-120 | the accumulated rounding error of n fees, refused slices included, is below n half-units |
| `Fees.RefundDustBounded` | apps/api/src/ledger/ledger.service.ts:106-120 | a complete refund in any slices: the three residues cancel out; settlement_clearing nets to zero exactly when no slice is a tie (when the capture itself was refused: exactly when every positive slice is); whatever was refused, the fee account is within (n+1)/2 units of the exact fee of what stayed booked, so below (n+1)/2 units when clearing nets to zero |
| `Fees.ClearingKeepsTiedSlices` | apps/api/src/ledger/ledger.service.ts:111-120 | what a complete refund of a posted capture leaves in settlement_clearing is exactly the sum of the tied slices |
| `Fees.WholeRielLeavesNoDust` | apps/api/src/ledger/ledger.service.ts:95-120 | a complete refund in whole-riel slices leaves every account of the store exactly where it was |
| `Payouts.PayoutService.Owed` | apps/api/src/admin/payout.service.ts:40-57 | the loop over the grouped sums computes the store's position on merchant_payable |
| `Payouts.PayoutService.PayManual` | apps/api/src/admin/payout.service.ts:60-104 | the manual branch under the lock: row, books and every refusal, a taken payout id included |
| `Payouts.PayEffect` | apps/api/src/admin/payout.service.ts:76-91 | what an accepted payout takes, and that it stays within the tolerance of what was owed |
| `Payouts.PayDoes` | apps/api/src/admin/payout.service.ts:60-98 | a payout is accepted exactly when it is positive and at most half a cent above what the books owe the store; it books at most one journal, from the store's balance to clearing |
| `Payouts.ToleranceNeverAccumulates` | apps/api/src/admin/payout.service.ts:66-98 | over any run of captures, refunds and manual payouts of any decimal amounts merchant_payable plus the refunded net stays at or above minus one tolerance |
| `Payouts.OverdrawnByOneTolerance` | apps/api/src/admin/payout.service.ts:76-78 | without refunds the overdraft is at most one tolerance however many payouts there are |
| `Payouts.PayoutBookedIff` | apps/api/src/admin/payout.service.ts:79-95 | an accepted payout moves the books exactly when it is at least half a ledger unit; below that the row says PAID and nothing is booked |
| `Payouts.PayoutCanGoUnbooked` | apps/api/src/admin/payout.service.ts:63-95 | a payout of 0.00004 is accepted on empty books and booked nowhere |
| `Amount.AcceptedIff` | apps/api/src/payments/amount.util.ts:16-39 | validation accepts exactly the well-shaped amounts of whole minor units within the bounds |
| `Amount.ValidationOutcome` | apps/api/src/payments/amount.util.ts:4-39 | the outcome for every text: what is no decimal text is badly formatted, and of the others each error and acceptance exactly, with the bounds and steps of both currencies |
| `Amount.FormatRounds` | apps/api/src/payments/amount.util.ts:42-44 | output has two decimals for dollars and none for riel, rounded to the nearest, a half upwards |
| `Amount.FormatRoundTrip` | apps/api/src/payments/amount.util.ts:41-44 | an accepted amount, formatted, validates to the same amount |
| `Amount.AcceptedAmountsAreCaptured` | apps/api/src/payments/amount.util.ts:24-38 | every accepted riel amount is captured at any rate; an accepted dollar amount exactly off the tie |
| `Payments.TransitionsDescend` | packages/shared-types/src/index.ts:18-36 | the transition graph is acyclic: every edge goes strictly down a rank of at most four |
| `Payments.TransitionsByTarget` | packages/shared-types/src/index.ts:18-36 | from where each status can be reached: paid from pending, scanned and expired, refunded from paid only |
| `Payments.RefundsConserveMoney` | apps/api/src/payments/payments.service.ts:331-350 | in every interleaving the refunded amount is the sum of succeeded refunds, each positive, at most the payment, and all of it when the status is refunded |
| `Payments.PaidAtMostOnce` | apps/api/src/payments/payments.service.ts:536-601 | in every interleaving the history is one connected path with at most four moves ending at the status, paidAt is set exactly in paid and refunded, the paid effects run at most once and never before it is paid, and if they have not run exactly one caller, the winner, has yet to run them or stopped after its commit |
| `Payments.RunAdvances` | apps/api/src/payments/payments.service.ts:553-567 | status only descends, history and refunds only grow, and paidAt never changes once set |
| `Payments.EffectsRanIff` | apps/api/src/payments/payments.service.ts:575-594 | in every interleaving the paid effects have run exactly when the payment is settled and no caller owes them, neither one about to run them nor one that stopped after its commit |
| `Payments.EffectsCanBeLost` | apps/api/src/payments/payments.service.ts:572-577 | a caller that moves a payment to paid and stops after its commit: the payment is paid and the effects have not run |
| `Payments.OneRefundPerSnapshot` | apps/api/src/payments/payments.service.ts:386-392 | in every interleaving, of any two refund callers that read one refunded amount at most one ever commits; the other still holds that amount or ended in a conflict or aborted |
| `Payments.RefundsWereAsked` | apps/api/src/payments/payments.service.ts:331-350 | in every interleaving each refund row is one its caller asked for, at its first step, of a paid payment and of exactly the amount it named or of all that was left then, and no two rows come from one caller |
| `Payments.RefundSettles` | apps/api/src/payments/payments.service.ts:331-434 | in every reachable state a caller nobody disturbs that asks for an amount, or for all that is left, of a paid payment refunds exactly that, and one that completes the amount leaves the payment refunded; a request that does not fit changes nothing |
| `Payments.ReceiptSettles` | apps/api/src/payments/payments.service.ts:536-594 | in every reachable state a payment that is pending, scanned or expired becomes paid by a caller nobody disturbs, with paidAt set and its effects run exactly once; in every other status that caller changes nothing |
| `Payments.PaymentTable.BeginTransition` | apps/api/src/payments/payments.service.ts:543-552 | the read half of a transition: a no-op, a refusal, or the status and paidAt it saw |
| `Payments.PaymentTable.EndTransition` | apps/api/src/payments/payments.service.ts:556-573 | the guarded write and the history row: nothing when the status has moved, else exactly status, paidAt and one row |
| `Payments.PaymentTable.RunPaidEffects` | apps/api/src/payments/payments.service.ts:575-594 | the paid effects, after the commit, by the caller that won |
| `Payments.PaymentTable.Transition` | apps/api/src/payments/payments.service.ts:536-601 | an undisturbed transition succeeds exactly from where the target can be reached, status by status; it sets paidAt and runs the effects exactly for a move to paid, writes one history row, and otherwise changes nothing |
| `Payments.PaymentTable.BeginRefund` | apps/api/src/payments/payments.service.ts:331-350 | the read half of a refund: accepted exactly for a positive amount within what is left of a paid payment, and then of the amount asked for, or of all that is left |
| `Payments.PaymentTable.EndRefund` | apps/api/src/payments/payments.service.ts:367-413 | the guarded increment by the slice, the refund row and the paid-to-paid history row, or a conflict that changes nothing |
| `Payments.PaymentTable.Refund` | apps/api/src/payments/payments.service.ts:331-434 | an undisturbed refund: refunded and the refund rows grow by exactly the amount asked for, or all that is left, and the status ends in refunded exactly when nothing is left |
| `Payments.PaymentTable.Cancel` | apps/api/src/payments/payments.service.ts:290-301 | succeeds exactly from pending or scanned, and otherwise changes nothing |
| `Payments.PaymentTable.ApplyLazyExpiry` | apps/api/src/payments/payments.service.ts:613-619 | expires exactly a waiting payment past its expiry |
| `Idempotency.OneEffectPerKey` | apps/api/src/idempotency/idempotency.module.ts:67-98 | in every interleaving at most one effect commits per key and the record exists exactly when it did |
| `Idempotency.AllCallersAgree` | apps/api/src/idempotency/idempotency.module.ts:88-112 | all calls with one key that return give the one committed response and sent the same body |
| `Idempotency.RecordsAreStable` | apps/api/src/idempotency/idempotency.module.ts:71-87 | a record never changes in any continuation |
| `Idempotency.KeyIsTakenIff` | apps/api/src/idempotency/idempotency.module.ts:71-97 | in every interleaving a key is recorded exactly when some call with it returned its own response and not a replay |
| `Idempotency.FailureBurnsNoKey` | apps/api/src/idempotency/idempotency.module.ts:71-97 | in every interleaving, a key all of whose calls failed has no effect and no record, and the next call to reach its commit succeeds under it |
| `Idempotency.RetryReplays` | apps/api/src/idempotency/idempotency.module.ts:67-69 | in every continuation, no call begun after a key is recorded runs the work or commits under it; once answered it has the recorded response or was refused for another body |
| `Idempotency.RefusalIsForTheBody` | apps/api/src/idempotency/idempotency.module.ts:100-112 | in every interleaving a call is refused for its body only when its key is recorded with another one |
| `Idempotency.IdempotencyService.RunAndRecord` | apps/api/src/idempotency/idempotency.module.ts:72-86 | the work and the insert commit together or roll back together |
| `Idempotency.IdempotencyService.Finish` | apps/api/src/idempotency/idempotency.module.ts:71-97 | the transaction and, after a unique violation of its own record or of another index, the replay of the winner, or the error when there is none |
| `Idempotency.IdempotencyService.Execute` | apps/api/src/idempotency/idempotency.module.ts:55-98 | a whole call, among any steps of other callers, is a run of the protocol; replay, own commit or failure, and the tables after each |
| `Crc.Crc16` | apps/api/src/providers/khqr.util.ts:19-29 | the bitwise loop on the wide accumulator computes the reference checksum |
| `Crc.Superposition` | apps/api/src/providers/khqr.util.ts:19-29 | two checksums differ by the zero-started checksum of the difference |
| `Crc.BurstIsDetected` | apps/api/src/providers/khqr.util.ts:19-29 | strings of one length that differ within sixteen consecutive bits share a checksum exactly when they do not differ |
| `Crc.AdjacentChangeIsDetected` | apps/api/src/providers/khqr.util.ts:19-29 | for 8-bit characters one changed character or two adjacent ones always change the checksum |
| `Crc.OddErrorsAreDetected` | apps/api/src/providers/khqr.util.ts:19-29 | any odd number of flipped bits changes the checksum |
| `Tlv.ParseTlv` | apps/api/src/providers/khqr.util.ts:156-171 | the loop terminates with the map of the fields, or with the error of the first malformed one |
| `Tlv.ParsesToIff` | apps/api/src/providers/khqr.util.ts:13-16 | a string parses to a list of fields exactly when it is their print and they fit: the parser is the unique inverse of the printer |
| `Khqr.BuildBakongKhqr` | apps/api/src/providers/khqr.util.ts:86-133 | the builder prints the declared field list and seals it with the checksum |
| `KhqrFormat.BuiltIsPayload` | apps/api/src/providers/khqr.util.ts:86-133 | what is built is a payload of the format, tag by tag in its own digits: indicator, point of initiation, account block under 29 or 30 with its sub-tags, 5999, currency, amount, KH, name and city cut to 25 and 15, block 62 with bill number, mobile number and store label under 01, 02 and 03 exactly when given and cut to 25, block 99 with creation and expiry under 00 and 01 exactly on a dated code with an amount; in ascending order, nothing besides, closed by 6304 and the checksum |
| `KhqrFormat.FitsFormatIff` | apps/api/src/providers/khqr.util.ts:86-133 | the lengths a caller has to keep, in characters of the id, the sub-tag, the bank and the amount |
| `Khqr.FieldsReadBackIff` | apps/api/src/providers/khqr.util.ts:86-131 | the printed fields read back as themselves exactly when the account block and the amount have at most 99 characters |
| `Khqr.ParseSealed` | apps/api/src/providers/khqr.util.ts:185-202 | what the parser makes of any sealed body: refused exactly when the checksum is itself a header, otherwise its fields are interpreted |
| `Khqr.RoundTrip` | apps/api/src/providers/khqr.util.ts:185-240 | parsing a built payload that fits gives back id, sub-tag 01, bank, truncated name and city, currency, amount and static flag, with the three exceptions stated |
| `Khqr.AcceptedIff` | apps/api/src/providers/khqr.util.ts:191-218 | acceptance exactly when the id is name@bank and the checksum is not the text 6304 |
| `KhqrFormat.ParsesIff` | apps/api/src/providers/khqr.util.ts:185-240 | acceptance exactly, for any text at all: it is a body, 6304 and the body's checksum in any case between blanks, those four digits are not 6304 again, and the body names the indicator, a point of initiation, a payee name@bank and no country but KH; every field of the result is what its tag says |
| `Khqr.AcceptedAreFarApart` | apps/api/src/providers/khqr.util.ts:189-199 | two accepted payloads of one length with the same digits never differ within a sixteen-bit burst only |
| `Khqr.RetypedIsRejected` | apps/api/src/providers/khqr.util.ts:175-199 | retyping one character or two adjacent ones before the four digits makes an accepted payload rejected |
| `KhqrException.ChecksumExceptionIsReal` | apps/api/src/providers/khqr.util.ts:191-194 | a concrete well-formed code whose checksum reads 6304, which the parser refuses |
| `KhqrException.CheckValue` | apps/api/src/providers/khqr.util.ts:18-29 | the checksum of 123456789 is 29B1, the check value of this polynomial, initial value and bit order |
| `KhqrMock.BuildMockKhqr` | apps/api/src/providers/khqr.util.ts:242-272 | the mock builder prints what the real one prints for one individual account |
| `KhqrMock.MockRoundTrip` | apps/api/src/providers/khqr.util.ts:242-272 | every mock code parses back, up to the checksum exception |
| `KhqrMock.MockIsPayload` | apps/api/src/providers/khqr.util.ts:242-272 | what a mock code holds, tag by tag: mock@paykh, its acquirer, the amount, bill number and store label as given, no mobile number and no times |
| `ValueProvider.MockDigitalValueProvider.Move` | apps/api/src/providers/mock-digital-value.provider.ts:112-154 | the two loops: refuse the first line a balance cannot bear, else apply all lines and record the key |
| `ValueProvider.MockDigitalValueProvider.CreateWallet` | apps/api/src/providers/mock-digital-value.provider.ts:51-57 | one wallet per customer |
| `ValueProvider.MockDigitalValueProvider.Issue` | apps/api/src/providers/mock-digital-value.provider.ts:68-72 | an issue is the step of that kind |
| `ValueProvider.MockDigitalValueProvider.Transfer` | apps/api/src/providers/mock-digital-value.provider.ts:74-80 | a transfer is the step of that kind |
| `ValueProvider.MockDigitalValueProvider.Redeem` | apps/api/src/providers/mock-digital-value.provider.ts:82-86 | a redemption is the step of that kind |
| `ValueProvider.MockDigitalValueProvider.Burn` | apps/api/src/providers/mock-digital-value.provider.ts:88-92 | a burn is the step of that kind |
| `ValueProvider.BalanceIsTheLedger` | apps/api/src/providers/mock-digital-value.provider.ts:130-138 | after any calls every balance is non-negative and equals the sum of deltas over distinct successful keys |
| `ValueProvider.SupplyIsConserved` | apps/api/src/providers/mock-digital-value.provider.ts:68-92 | the supply of an asset is issued minus redeemed minus burned |
| `ValueProvider.ReplayChangesNothing` | apps/api/src/providers/mock-digital-value.provider.ts:117-128 | repeating a successful key changes nothing whatever came in between: the same movement gets the first receipt, another is refused |
| `ValueProvider.SameLinesIff` | apps/api/src/providers/mock-digital-value.provider.ts:121-123 | which calls the comparison takes for the same movement; a redemption and a burn are |
| `ValueProvider.BurnReplaysRedemption` | apps/api/src/providers/mock-digital-value.provider.ts:117-128 | a burn under the key of an accepted redemption of the same amount is answered with its receipt, whatever came in between, and changes nothing |
| `ValueProvider.FailureLeavesNoTrace` | apps/api/src/providers/mock-digital-value.provider.ts:130-135 | taken out of any history, a refused call changes neither the final state nor the outcome of any other call |
| `ValueProvider.AcceptedIff` | apps/api/src/providers/mock-digital-value.provider.ts:130-135 | a fresh payment succeeds exactly when the payer holds the amount |
| `ValueProvider.FreshCall` | apps/api/src/providers/mock-digital-value.provider.ts:112-154 | a call under a fresh key in full: the refusal and the slot it names, or the receiver gains and the payer loses exactly the amount and the receipt carries the next id and the caller's reference |
| `Games.Choose` | apps/api/src/games/games.service.ts:364-370 | the loop picks the first prize whose cumulative weight exceeds the roll |
| `Games.ExactlyOneHit` | apps/api/src/games/games.service.ts:364-370 | a roll within the total weight falls to exactly one prize |
| `Games.ChoiceHits` | apps/api/src/games/games.service.ts:366-370 | the loop's choice is that prize; the last-prize default is never needed |
| `Games.ExactlyWeighted` | apps/api/src/games/games.service.ts:364-370 | of the whole-number rolls exactly weight-many fall to each prize |
| `Games.OddsAreWeights` | apps/api/src/games/games.service.ts:361-370 | in any listing of the prizes that can be drawn, as many whole-number rolls fall to a prize as it weighs, out of the sum of their weights |
| `Games.NeverOversells` | apps/api/src/games/games.service.ts:372-378 | in every interleaving of claims stock plus awarded is constant and stock non-negative for a finite prize, and awards match winning claims one to one |
| `Games.EmptyHandedIsHonest` | apps/api/src/games/games.service.ts:360-382 | a claim that ends with nothing leaves no prize that has weight and is unlimited or in stock, or lost ten races for ten prizes whose stock is gone |
| `Games.FewPrizesAreAllGiven` | apps/api/src/games/games.service.ts:360-382 | with fewer than ten prizes a null result means nothing is left |
| `Games.Game.ReadAndDraw` | apps/api/src/games/games.service.ts:361-370 | the step draws a prize that has weight, is unlimited or in stock and not excluded, and ends with nothing exactly when there is none |
| `Games.Game.TakeChosen` | apps/api/src/games/games.service.ts:372-379 | the conditional claim: an unlimited prize is always won, a finite one exactly while stock lasts, and one unit and one award are booked; a lost race excludes the prize and counts as an attempt, ten of which end the claim |
| `Games.Game.ClaimPrize` | apps/api/src/games/games.service.ts:358-382 | the retry loop, among other claims, is a run of the protocol that ends within ten attempts |
| `Base32.Base32Encode` | packages/security/src/totp.ts:9-23 | the loop on the overflowing accumulator writes the reference encoding |
| `Base32.Base32Decode` | packages/security/src/totp.ts:25-41 | the cleaning and the loop read the reference decoding |
| `Base32.DecodeEncode` | packages/security/src/totp.ts:9-41 | decoding an encoding gives back every byte sequence, with the unpadded length ceil(8n/5) |
| `Base32.DecodeIgnores` | packages/security/src/totp.ts:26-33 | a character outside the alphabet can be inserted anywhere without changing what is decoded |
| `Base32.SpacesAreForeign` | packages/security/src/totp.ts:26 | white space and padding are such characters |
| `Base32.DecodeIgnoresCase` | packages/security/src/totp.ts:26 | neither does case matter |
| `Base32.EncodeDecodeIff` | packages/security/src/totp.ts:9-41 | a text survives decoding and encoding exactly when it is canonical |
| `Base32.TestVector` | packages/security/src/totp.ts:9-23 | the encoding of foobar is MZXW6YTBOI, as in section 10 of RFC 4648 |
| `Base32.AlphabetIsTable3` | packages/security/src/totp.ts:7 | the alphabet is that of table 3 of RFC 4648 |
| `RateLimit.CounterKey.Eval` | apps/api/src/ratelimit/rate-limit.ts:32-39 | the script counts and leaves a time to live |
| `RateLimit.CounterKey.CanActivate` | apps/api/src/ratelimit/rate-limit.ts:71-89 | admission is the count test |
| `RateLimit.AlwaysExpires` | apps/api/src/ratelimit/rate-limit.ts:26-39 | after any trace, a request leaves the key with an expiry ahead of it |
| `RateLimit.FixedWindowBound` | apps/api/src/ratelimit/rate-limit.ts:71-89 | any half-open interval of one window admits at most 2 limit - 1 requests (none for limit 0), besides those of an outage |
| `RateLimit.BoundIsReached` | apps/api/src/ratelimit/rate-limit.ts:71-89 | a trace that attains that bound, for every positive limit |

## Left out

- I/O, controllers, validation of request objects, provider calls, webhooks, email, alerts, audit and metrics.
- Cryptography: the MD5 beside a KHQR payload and the body hash of idempotency are not modelled; hashes are compared as given numbers.
- Calendar arithmetic: cutoffs, creation times and the day of a notice are given as numbers, with the warning cutoff not before today's.
- Identifiers are numbers and random ids are parameters; a taken id makes the write fail, as the primary key does.
- Floating-point products: points are the floors of exact real products, and prize rolls are real numbers.
- Decimal arithmetic is exact before rounding to four places; precision limits of the decimal library and column overflow are not modelled.
- Races inside loyalty, campaign and referral operations: each is one atomic step, although the source reads and then writes absolute balances.
- Loyalty.LoyaltyService.AwardForPayment: the customer's tier is given by its multiplier and its reassignment is not modelled; a customer of another store is refused, where the source relies on the check made when the payment was created (apps/api/src/customers/customers.service.ts:87).
- Loyalty.LoyaltyService.OnPaidPayment: a customer of another store is refused as above.
- Loyalty.LoyaltyService.ApplyPromotion: the promotion is read when its turn comes and not once before the loop; without races these are the same.
- Loyalty.LoyaltyService.QuoteBonus: whether a customer is in a promotion's segment is given.
- Loyalty.LoyaltyService.ApplyToPayment: the promotions come in the order of the query, and a customer of another store is refused as above.
- Free-text reasons are kept only where code reads them.
- Rows of the points engine are confirmed when written; unconfirmed rows occur only in the backfill's table.
- Admin edits of rewards, prizes, promotions and fees, deletion of rewards, and the mirror on PayChain.
- Grouped queries are parameters constrained to be the groups of the stored lines, in any order; rounding to two places for display is not modelled.
- The email filter of the warning, failed sends, and the preview report: the preview sums the same formula.
- Idempotency records are kept; their cleanup after the time to live is not modelled, and a refund's reservation of its key is covered by the idempotency protocol and not repeated in the payment protocol.
- Status history reasons, quota counters and the other side effects of a paid payment: one counter stands for the whole block, and a caller that stops inside it counts as not having run it.
- `refunded` as a target is only asked for by the refund that completed the amount, as in the source; other callers may ask for any other status.
- Bakong disbursement and the non-manual payout branch, subscription and commission journals, also in the money backfill, and the four reconciliation checks.
- KHQR times are whole milliseconds from the epoch on; upper-casing is on ASCII letters, which is exact for the texts compared; an account block or amount over 99 characters is covered only by `Khqr.FieldsReadBackIff`.
- A wallet and an asset are a pair and not a joined string, so ids that contain the separator are not modelled; reading balances, wallet lookup and reset are left out.
- Deletion of a prize between draw and claim, play records, scratch cards and the credit of non-point prizes.
- Base32 upper-casing is on ASCII letters; a few letters outside ASCII have an ASCII upper case and are skipped here.
- Limiter keys, headers and the second, global guard, which runs the same script with its own constants; time-to-live rounding to seconds.
- Gift cards, coupons, quotas, dunning, circuit breaker, access control and feature flags.
