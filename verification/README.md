# Order money, earnings and consistency of the marketplace backend

This project models the parts of the backend that keep money and derived data consistent over long runs, and
proves what their comments and tests promise. Handlers that update a document in place are methods of a class
whose fields they assign; each is proved equal to a function on values, and the laws are lemmas about those
functions, over every input, every run or every interleaving.

| files | what they model |
|---|---|
| `Prelude.dfy`, `OrderTypes.dfy`, `Conditions.dfy` | rounding, sums, order items, automatic rules |
| `Settlement.dfy`, `SettlementLaws.dfy`, `OrderService.dfy` | confirming, rejecting, unwinding, auto-rejecting and tracking the shipments of a multi-vendor order |
| `RejectionEffects.dfy` | which items and shipments each of these steps touches |
| `RefundLaws.dfy`, `RefundRuns.dfy` | every refund against what is owed, over runs with unwinds and auto-rejects |
| `StatusLaws.dfy` | the order's status over runs with courier and payment reports, and the order of decisions |
| `Ledger.dfy`, `LedgerLaws.dfy`, `LedgerService.dfy` | vendor earnings and wallets: recording, releasing, reversing, docking |
| `PayoutLaws.dfy`, `ReversalEffects.dfy` | when and how much an order pays out, and which earnings and wallets a reversal touches |
| `ReleaseProtocol.dfy`, `RecordProtocol.dfy` | the release cron, and the recording of an order, run by several instances at once |
| `ReleaseRaces.dfy` | a release against a reversal, and against a penalty, of the same earning |
| `LatePenalty.dfy` | the late-fulfilment cron, run by run, and overlapping with crashes and failed charges |
| `VendorDisplay.dfy` | the money breakdown shown to a vendor, against the ledger |
| `Pricing.dfy`, `PricingLaws.dfy`, `Normalization.dfy` | item prices, the itemized breakdown, order totals, normalising selections |
| `Collections.dfy`, `Discounts.dfy` | stored collection membership and stored discounts, each kept by two loops |
| `Reservations.dfy` | fabric reservation stock |
| `Bespoke.dfy`, `BespokeService.dfy` | the bespoke quote protocol, with wallet and card payments |
| `BespokeLaws.dfy`, `BespokeCharges.dfy`, `BespokeRuns.dfy` | its safety, what an accepted quote costs, and runs that break a law |
| `WeekKey.dfy` | the weekly digest key and the one-digest-a-week rule |

Amounts are `real`; rounding is `floor(100x + 0.5)/100`. Clocks, randomness, settings and database lookups are
parameters. `dafny verify dfyconfig.toml` checks everything.

## What the proofs found

Where the code does not keep an intended property, a lemma gives the exact condition, over all inputs or runs,
under which it does, and another lemma an input on which it does not.

| what happens | exact condition | input |
|---|---|---|
| Unwinding a declined fabric leg refunds again what was refunded of the tailor's items before, by a rejection, an unwind or an auto-reject; auto-rejecting a garment leaves out external fabric | `RefundRuns.RefundsExactIff` | `RefundRuns.UnwindRefundsTwice`, `RefundRuns.TwoLegsRefundTwice`, `RefundRuns.PassRefundsTwice`, `RefundRuns.PassRefundsTooLittle` |
| A courier report, and a payment reported again, set the order's status whatever it was, and take an order out of the cancelled status | `StatusLaws.StatusFollowsIff`, `StatusLaws.CancelledStaysIff` | `StatusLaws.CancelledOrderTravels`, `StatusLaws.CancelledOrderIsReviewed` |
| A release credit that reports a failure and has moved the money is paid again on the retry | `ReleaseProtocol.PaidTwiceIff` | `ReleaseProtocol.RetryPaysTwice` |
| A release that claims an earning while it is being reversed keeps its payout | `ReleaseRaces.ReversalIsExactIff` | `ReleaseRaces.CrossedReversalPays` |
| A release that read an earning before a penalty was taken from it pays the penalty back | `ReleaseRaces.PenaltyIsExactIff` | `ReleaseRaces.StaleReleasePaysPenaltyBack` |
| Overlapping late-penalty runs claim more than the stored penalty, a late save opens a tier again, and a winner that crashes or fails to charge leaves its claim uncharged | `LatePenalty.OverlappingRuns`, `LatePenalty.TiersClimbIff`, `LatePenalty.ChargedIsClaimedIff` | `LatePenalty.StaleReadOvercharges`, `LatePenalty.LateSaveReopensTier`, `LatePenalty.CrashLosesCharge` |
| The vendor display leaves out what a vendor earns for fabric supplied to its own item | `VendorDisplay.DisplayMatchesLedger` | `VendorDisplay.OwnFabricIsNotShown` |
| The lines of an accessory on markdown do not add up when the pieces selected cost more than the item's quantity does without the markdown | `PricingLaws.BreakdownFitsIff` | `PricingLaws.AccessoryLinesDoNotFit` |
| Normalising refuses a colour or accessory without a quantity when the shelf is empty, and changes the price of a fabric without yards | `Normalization.ColourPriceIff`, `Normalization.AccessoryPriceIff`, `Normalization.FabricPriceIff`, `Normalization.NormalizingKeepsPriceIff` | `Normalization.UncountedSelectionIsRefused`, `Normalization.GuessedYardsChangePrice` |
| Applying an active vendor collection without a business reaches products that syncing leaves out | `Collections.LoopsAgreeIff` | `Collections.UnownedCollectionDiffers` |
| Applying discounts stores one that saves nothing, syncing does not; syncing heeds no inclusion or exclusion by hand | `Discounts.LoopsAgreeIff`, `Discounts.PricesAgreeIff` | `Discounts.EmptyDiscountDiffers`, `Discounts.OverrideIsUndone`, `Discounts.ExclusionIsUndone` |
| A card payment that completes late accepts a second quote, and puts a cancelled design into production; an acceptance that fails partway leaves an accepted quote on an undecided design | `BespokeLaws.ProtocolIsSafeIff`, `BespokeLaws.FinalIsAbsorbingIff` | `BespokeRuns.TwoQuotesAccepted`, `BespokeRuns.CancelledDesignIsProduced`, `BespokeRuns.TornAcceptance` |
| An order left unpaid keeps its total when the quote is revised, and accepting then charges the old total; an acceptance that fails once its quote is saved is refunded and stands | `BespokeCharges.AcceptChargesStandingOffer` | `BespokeRuns.RevisedQuoteChargesOldTotal`, `BespokeRuns.RefundedAcceptanceStands` |
| `Date.UTC` reads the years 0 to 99 as 1900 to 1999, in the date itself and in the fourth of January of its week's year | `WeekKey.KeyIsIsoIff` | `WeekKey.TwoDigitYearsCollide`, `WeekKey.NewYear100IsMisread` |

The fallback in `rejectVendorShipment` that fails the shipment once more is never reached.

## Model

| member | source | states |
|---|---|---|
| OrderService.Order.constructor | src/modules/orders/orders.service.ts:305-310 | a placed order is settled: its total is the full charge of its items and shipments, and nothing is refunded |
| OrderService.Order.RejectItems | src/modules/orders/orders.service.ts:2339-2455 | rejecting a vendor's items fails their fabric legs and an emptied garment shipment, lowers the totals, derives the status, refunds exactly the drop in the live charge, and reverses each item's earnings |
| OrderService.Order.RejectOrderItem | src/modules/orders/orders.service.ts:2261-2327 | refused exactly when the item is not the vendor's, is rejected already or has left; otherwise that one item is rejected and its earnings reversed; a refusal changes nothing |
| OrderService.Order.RejectVendorShipment | src/modules/orders/orders.service.ts:2157-2252 | refused exactly when there is no live, undispatched shipment; a garment shipment is rejected with all its active items, a fabric leg is unwound |
| OrderService.Order.UnwindFabricTransfer | src/modules/orders/orders.service.ts:2475-2585 | the leg and the tailor's garment fail, the tailor's items and both fees are refunded, and the earnings of both vendors are reversed |
| OrderService.Order.ConfirmVendorShipment | src/modules/orders/orders.service.ts:2050-2130 | the shipment is confirmed once, the order moves on when all live shipments are confirmed, and the vendor's upfront earnings are dated |
| OrderService.Order.RejectStaleGarment | src/modules/orders/orders.service.ts:2899-2988 | a stale garment shipment fails; its refund goes out only if it was not claimed before |
| OrderService.Order.AutoRejectStaleShipments | src/modules/orders/orders.service.ts:2816-3036 | the pass over all shipments of an order in review, ended by the first unclaimed stale fabric leg |
| SettlementLaws.RejectItemsSettles | src/modules/orders/orders.service.ts:2400-2408 | rejecting keeps the books exact, and the clamps at zero on total and shipping fee never bind |
| RejectionEffects.RejectionFails | src/modules/orders/orders.service.ts:2353-2398 | with one live leg for a tailor and a fabric, rejecting a vendor's items rejects just those, and fails just the live legs whose fabric one of them uses and the vendor's garment once it has no live item; all else is unchanged |
| RejectionEffects.ItemRejectionFails | src/modules/orders/orders.service.ts:2261-2327 | an item's rejection is refused if and only if it is rejected already or its vendor's garment was rejected, is on the way or has arrived; otherwise just that item is rejected, with what is no longer needed |
| RejectionEffects.ShipmentRejectionFails | src/modules/orders/orders.service.ts:2157-2252 | a garment's rejection is refused if and only if it is rejected already or on the way; otherwise just its vendor's items are rejected, with what is no longer needed |
| RejectionEffects.OnlyLegsAreCalledBack | src/modules/orders/orders.service.ts:2157-2398 | of what is on the way, such a decision rejects just the legs of items it rejects, and no garment nor any item in it |
| RejectionEffects.UnwindFails | src/modules/orders/orders.service.ts:2475-2545 | declining a leg fails it and the live garment of its tailor, and rejects no item |
| RejectionEffects.PassFails | src/modules/orders/orders.service.ts:2816-2990 | a pass without an unclaimed leg fails just the garments that were neither confirmed nor rejected |
| SettlementLaws.SettlementConserves | src/modules/orders/orders.service.ts:2339-2455 | over every run of confirmations, item and garment-shipment rejections and reports from couriers and of payments: total is the live charge, and refunds plus total are the original charge |
| SettlementLaws.RefundedExactlyOnce | src/modules/orders/orders.service.ts:2353-2400 | the refunds are exactly the rejected items, legs and fees, each once |
| SettlementLaws.CancelledMeansRefunded | src/modules/orders/orders.service.ts:2410-2415 | when every shipment is rejected, the total is zero and the whole charge was refunded |
| RefundLaws.RejectItemsPays | src/modules/orders/orders.service.ts:2339-2455 | rejecting a vendor's items refunds exactly the drop in what is due, whatever was refunded before |
| RefundLaws.UnwindPays | src/modules/orders/orders.service.ts:2506-2525 | an unwind refunds what it drops, and once more what was dropped of the tailor's items before |
| RefundLaws.StalePays | src/modules/orders/orders.service.ts:2906-2918 | rejecting a stale garment refunds what it drops less the external fabric of its items |
| RefundLaws.PassShape | src/modules/orders/orders.service.ts:2816-3036 | a whole pass is its stale garments up to the first unclaimed leg, then the unwinding of that leg |
| RefundLaws.PassExcess | src/modules/orders/orders.service.ts:2816-3036 | a whole pass refunds what was dropped before or earlier in the pass once more with its leg, and leaves out the external fabric of the garments it rejects |
| RefundRuns.RefundsExactIff | src/modules/orders/orders.service.ts:2050-3036 | over every run, unwinds and auto-rejects included: refunds plus what is still due are the original charge plus what is refunded twice less what is left out, and both are nothing if and only if no unwind meets a tailor's item dropped before and no pass rejects a garment with external fabric, except at no price |
| RefundRuns.PlacedIsExact | src/modules/orders/orders.service.ts:305-310 | a placed order is one such runs may start from: its total is what is due |
| RefundRuns.CleanRunConserves | src/modules/orders/orders.service.ts:2050-3036 | over every run without those, the total is what is due and refunds plus total are the original charge |
| RefundRuns.PassRefundsTwice | src/modules/orders/orders.service.ts:2816-3036 | one pass over a placed order of 128 that refunds 105 and 123 |
| RefundRuns.TwoLegsRefundTwice | src/modules/orders/orders.service.ts:2475-2585 | two declined legs of one tailor that refund 128 and 123 on a placed order of 131 |
| RefundRuns.PassRefundsTooLittle | src/modules/orders/orders.service.ts:2906-2918 | a pass that cancels a placed order of 125 and refunds 105 |
| RefundRuns.UnwindRefundsTwice | src/modules/orders/orders.service.ts:2506-2525 | a run from a placed order of 178 in which a rejected item is refunded again with a declined leg |
| OrderService.Order.UpdateFromCourier | src/modules/webhook/webhook.service.ts:539-588 | a report sets the shipment's status; the order completes when all are delivered, its undated earnings being dated, and travels when any is under way |
| StatusLaws.StatusIsTracked | src/modules/webhook/webhook.service.ts:539-588 | over every run with reports, unwinds and auto-rejects: the order is travelling, completed or in review, or its status is the rule's |
| StatusLaws.StatusFollowsIff | src/modules/orders/orders.service.ts:2410-2421 | the status is cancelled when all shipments are rejected, processing when the rest are all confirmed and in review otherwise, throughout a run if and only if no courier report and no repeated payment report moves the order |
| StatusLaws.CancelledStaysIff | src/modules/orders/orders.service.ts:2535-2545 | a cancelled order stays cancelled throughout a run if and only if no such report moves it |
| StatusLaws.CancelledOrderTravels | src/modules/webhook/webhook.service.ts:539-588 | an order cancelled by a declined leg that the next courier report sets travelling |
| StatusLaws.CancelledOrderIsReviewed | src/modules/webhook/webhook.service.ts:241-249 | a cancelled order, all its shipments rejected, that a repeated payment report puts into review |
| StatusLaws.CancelledOrderIsRefunded | src/modules/orders/orders.service.ts:2410-2415 | whenever a run of garment decisions and reports ends cancelled, the total is zero and the whole charge was refunded |
| StatusLaws.DecisionOrderIsImmaterial | src/modules/orders/orders.service.ts:2050-2252 | with one decision per shipment and no fabric legs, the outcome does not depend on the order of the decisions |
| LedgerService.Ledger.Reconcile | src/modules/wallets/wallets.service.ts:151-175 | both balances move by their deltas, floored at zero; a missing wallet is skipped |
| LedgerService.Ledger.Record | src/modules/business/business.service.ts:1383-1575 | recording claims the order and adds every item's earnings, pending balances and the order's totals, or does nothing |
| LedgerService.Ledger.RecordGoods | src/modules/business/business.service.ts:1436-1515 | the earnings of an item's vendor, whole or split in milestones, with the pending balance they add |
| LedgerService.Ledger.RecordFabric | src/modules/business/business.service.ts:1529-1567 | the separate earning of the vendor whose fabric was applied |
| LedgerService.Ledger.ReleaseFunds | src/modules/business/business-earning-cron.ts:136-224 | every due earning is released and moved from pending to balance |
| LedgerService.Ledger.ScheduleUpfront | src/modules/orders/orders.service.ts:2121-2130 | exactly the vendor's undated, unreleased upfront earnings of the order are dated |
| LedgerService.Ledger.ScheduleOnDelivery | src/modules/webhook/webhook.service.ts:564-573 | exactly the undated, unreleased earnings of the delivered order are dated |
| LedgerService.Ledger.Reverse | src/modules/orders/orders.service.ts:1958-2043 | covered unreleased earnings are deleted and leave pending; covered released ones are zeroed and leave the balance |
| LedgerService.Ledger.Dock | src/modules/orders/orders.service.ts:3170-3198 | a penalty is taken from open earnings in order, and the rest from the balance |
| LedgerLaws.GoodsEarningsSplit | src/modules/business/business.service.ts:1442-1507 | amount less commission is net for each part, and the parts sum to the unsplit earning |
| LedgerLaws.RecordingConserves | src/modules/business/business.service.ts:1435-1574 | vendor earnings plus commission equal item prices plus paid external fabric, and pending grows by exactly the vendor earnings |
| LedgerLaws.RecordedOnce | src/modules/business/business.service.ts:1391-1413 | recording an order again, with whatever arguments, changes nothing |
| LedgerLaws.ReleasedValid | src/modules/business/business-earning-cron.ts:170-192 | releasing keeps the invariant and every vendor's balance plus pending |
| LedgerLaws.ReversedValid | src/modules/orders/orders.service.ts:1969-1987 | reversing keeps the invariant, so the floor at zero on pending never binds |
| LedgerLaws.ReversalsCompose | src/modules/orders/orders.service.ts:1958-2043 | two reversals are the one reversal of what either covers |
| LedgerLaws.ReversalsCommute | src/modules/orders/orders.service.ts:1958-2043 | reversals commute and are idempotent |
| LedgerLaws.ReversalTouchesOnlyCovered | src/modules/orders/orders.service.ts:1963-1967 | every other earning stays as it is and in its place; what stays of the covered ones pays nothing |
| LedgerLaws.ItemByItemIsWholeOrder | src/modules/orders/orders.service.ts:2434-2443 | reversing item by item, in any order, leaves the earnings and wallets of one whole-order reversal |
| LedgerLaws.RecordThenReverse | src/modules/orders/orders.service.ts:1958-2043 | recording and reversing before any release restores earnings and every vendor's balances |
| LedgerLaws.DockedSums | src/modules/orders/orders.service.ts:3170-3198 | open earnings lose the smaller of the penalty and what they hold |
| LedgerLaws.PenalizedValid | src/modules/orders/orders.service.ts:3170-3198 | a penalty keeps the invariant, and pending never falls below zero |
| LedgerLaws.LedgerInvariant | src/modules/business/business.service.ts:1435-1574 | over every run of recording, releasing, dating on confirmation and on delivery, reversing and penalising: pending is the sum of unreleased nets, none negative |
| PayoutLaws.NothingBeforeConfirmation | src/modules/business/business-earning-cron.ts:140-192 | until a vendor confirms, no release pays out anything of the order |
| PayoutLaws.ConfirmationPays | src/modules/orders/orders.service.ts:2121-2130 | a vendor that confirms gets, from the date set then on, the upfront percentage of its made-to-order items after commission, and nothing for other items or fabric; no other vendor gets anything |
| PayoutLaws.DeliveryPays | src/modules/webhook/webhook.service.ts:564-573 | once all is delivered, from the date set then on and not before, every vendor has got what its items and its fabric earn after commission |
| ReversalEffects.VendorReversal | src/modules/orders/orders.service.ts:1958-2043 | reversing a vendor's earnings on an order leaves every other earning as it is and in its order, leaves the vendor nothing to be paid there, and changes no other wallet |
| ReversalEffects.ItemReversal | src/modules/orders/orders.service.ts:1958-2043 | the same by item |
| ReversalEffects.OrderReversal | src/modules/orders/orders.service.ts:1958-2043 | the same by order |
| ReversalEffects.UnwindTouchesTwo | src/modules/orders/orders.service.ts:2556-2580 | unwinding a leg touches the earnings and wallets of the fabric vendor and the tailor, and of no one else |
| ReversalEffects.PassTouchesWaiting | src/modules/orders/orders.service.ts:2816-3036 | an auto-reject pass touches those of vendors with something waiting on the order, and of no one else |
| ReversalEffects.PenaltyTouchesOnly | src/modules/orders/orders.service.ts:3170-3198 | a penalty lowers only unreleased earnings of its vendor on its order, none below zero, and changes no other wallet |
| RecordProtocol.RecordedAtMostOnce | src/modules/business/business.service.ts:1391-1413 | in every interleaving of callers, with a crash between any two database writes: at most one writes, and what was added is a beginning of the order's earnings, each once, credited but for at most the last ones, of one vendor |
| RecordProtocol.ConcurrentIsSequential | src/modules/business/business.service.ts:1383-1575 | without crashes the callers together do exactly one sequential recording |
| ReleaseProtocol.CreditsCounted | src/modules/business/business-earning-cron.ts:135-224 | in every interleaving of instances, with crashes, failed credits and failed reverts: an earning is credited once for every undone credit that had moved the money and at most once besides; pending is what is not credited, and no vendor's total changes |
| ReleaseProtocol.PaidTwiceIff | src/modules/business/business-earning-cron.ts:205-213 | a released earning was credited more than once if and only if a credit that had moved the money was reverted |
| ReleaseProtocol.CreditedAtMostOnce | src/modules/business/business-earning-cron.ts:135-224 | when failed credits move no money, each earning is credited at most once in every interleaving |
| ReleaseProtocol.RevertIsOwn | src/modules/business/business-earning-cron.ts:205-213 | a revert undoes only the instance's own uncredited claim |
| ReleaseProtocol.NothingBeforeDue | src/modules/business/business-earning-cron.ts:140-145 | an earning that is due later than every scan of a run is neither released nor credited in it |
| ReleaseProtocol.QuiescentRunsAreSequential | src/modules/business/business-earning-cron.ts:135-224 | without crashes and failed reverts every released earning is credited or in the hands of one instance; once none is, and failures were reported faithfully, released is the same as credited once and pending is the sum of the unreleased |
| ReleaseProtocol.RetryPaysTwice | src/modules/business/business-earning-cron.ts:205-213 | a run of two instances in which an earning of five pays out ten |
| ReleaseRaces.ReversalIsExactIff | src/modules/orders/orders.service.ts:1969-1987 | in every interleaving of a release and a reversal of one earning, the vendor ends with what it had before the order if and only if the claim did not fall between the reversal's read and delete, and the balance covered a claw-back that came before the credit |
| ReleaseRaces.CrossedReversalPays | src/modules/business/business-earning-cron.ts:171-192 | an interleaving in which the reversed earning is paid out, and other pending money pays for it |
| ReleaseRaces.PenaltyIsExactIff | src/modules/orders/orders.service.ts:3170-3198 | in every interleaving of a release and a penalty, the vendor loses the penalty and pending stays exact if and only if the release did not credit a net read before the penalty was taken, save where all is lost anyway, and the balance covered a claw-back that came before the credit |
| ReleaseRaces.StaleReleasePaysPenaltyBack | src/modules/business/business-earning-cron.ts:140-192 | an interleaving in which the vendor is paid in full and pending pays the penalty |
| LatePenalty.LateShipment.Assess | src/modules/orders/orders.service.ts:3079-3198 | one run charges exactly the growth of the recorded penalty, to the ledger, to the order's earnings and as a charge, or nothing |
| LatePenalty.ChargesTelescope | src/modules/orders/orders.service.ts:3098-3135 | over every sequence of runs the charges add up to the recorded penalty, which never falls and stays within the rounded cap |
| LatePenalty.PenaltyIsNearest | src/modules/orders/orders.service.ts:3102-3103 | the penalty is the whole amount nearest to the capped percentage of the vendor's items |
| LatePenalty.OncePerDay | src/modules/orders/orders.service.ts:3081-3112 | once a day late is charged for, further runs on it change nothing, whatever the percentages have become |
| LatePenalty.ChargeSplits | src/modules/orders/orders.service.ts:3155-3198 | a charge is what open earnings lose plus the claw-back, which is asked only once they are empty |
| LatePenalty.OverlappingRuns | src/modules/orders/orders.service.ts:3120-3200 | however runs overlap, crash and fail: the winners never claim less than the stored penalty, and claim exactly that throughout if and only if no winner's read was stale and no save takes the stored tier back; what they claim is what is charged, still to be charged, or lost |
| LatePenalty.ChargedIsClaimedIff | src/modules/orders/orders.service.ts:3127-3200 | once no winner has anything left to charge, all that was claimed is charged if and only if no winner crashed and no charge failed |
| LatePenalty.TiersClimbIff | src/modules/orders/orders.service.ts:3120-3159 | throughout a run the tiers are won in increasing order, each once, the last being stored, if and only if no winner's save takes the stored tier back |
| LatePenalty.StaleReadOvercharges | src/modules/orders/orders.service.ts:3081-3200 | two instances that read a day apart and charge fifteen for a stored penalty of ten |
| LatePenalty.LateSaveReopensTier | src/modules/orders/orders.service.ts:3154-3159 | a late save after which the stored penalty is five of ten charged, and a tier is won again |
| LatePenalty.CrashLosesCharge | src/modules/orders/orders.service.ts:3154-3200 | a winner that crashes before it charges: five stored, none charged |
| VendorDisplay.ComputeVendorBreakdown | src/modules/orders/orders.service.ts:1272-1297 | subtotal and net are sums over the vendor's items still on the order, and commission is their difference |
| VendorDisplay.RejectionLowersShown | src/modules/orders/orders.service.ts:1272-1297 | rejecting an item takes its price off the subtotal its vendor is shown, and its price after commission off the net |
| VendorDisplay.RecordingAgrees | src/modules/business/business.service.ts:1435-1574 | after recording, every item's earnings hold what the item is worth to each vendor |
| VendorDisplay.RejectionAgrees | src/modules/orders/orders.service.ts:2434-2443 | rejecting with per-item reversal keeps that |
| VendorDisplay.DisplayMatchesLedger | src/modules/orders/orders.service.ts:1272-1297 | over every run of rejections and releases the displayed net is what the earnings hold for the vendor's own items, if and only if none of them earns it anything for its own fabric |
| VendorDisplay.OwnFabricIsNotShown | src/modules/orders/orders.service.ts:1272-1297 | an order whose tailor earns 18 for its own fabric besides what it is shown |
| Pricing.CostsMeaning | src/modules/orders/orders.price-calculation.ts:220-236 | a selection list is refused exactly when some entry is, and otherwise costs the sum over its entries |
| PricingLaws.StyleCostMeaning | src/modules/orders/orders.price-calculation.ts:210-235 | refused if and only if a style is named that the garment lacks; otherwise, over the styles, each price times all pieces taken of it |
| PricingLaws.FabricCostMeaning | src/modules/orders/orders.price-calculation.ts:525-580 | for a garment, refused if and only if a fabric is missing or shorter than a cut; otherwise, over the fabrics, each yard price times all yards cut from it, rounded |
| PricingLaws.OwnFabricCostMeaning | src/modules/orders/orders.price-calculation.ts:480-523 | for a fabric product, refused if and only if another fabric is named or a cut is below the least or above the stock; otherwise the yard price times all yards, rounded |
| PricingLaws.CutYardsMeaning | src/modules/orders/orders.price-calculation.ts:541-566 | named yards are cut, or the least cut where that is more; no cut is below it |
| PricingLaws.ChartsInTurn | src/modules/orders/orders.price-calculation.ts:541-563 | where no yards are named, the garment's chart counts first and then the fabric's |
| PricingLaws.AccessoryCostMeaning | src/modules/orders/orders.price-calculation.ts:588-682 | for a garment, refused if and only if an accessory, its named variant or that one's stock is missing; otherwise, over the accessories, each price times all pieces, rounded |
| PricingLaws.OwnAccessoryCostMeaning | src/modules/orders/orders.price-calculation.ts:600-641 | for an accessory product, refused if and only if another accessory is named or the named variant is short; otherwise the selling price, or else the accessory's own, times all pieces, rounded |
| PricingLaws.ResolveFindsMeant | src/modules/orders/orders.price-calculation.ts:693-716 | a selection points to a size if and only if that size is meant: by its id, or by its colour's id and the size's name, or as the colour's only size |
| PricingLaws.ColourCostMeaning | src/modules/orders/orders.price-calculation.ts:684-736 | refused if and only if no size is meant or too few are left; otherwise, over the sizes, each surcharge times all pieces, rounded |
| PricingLaws.AddonCostMeaning | src/modules/orders/orders.price-calculation.ts:740-773 | where there are add-ons, refused if and only if one is named that is not offered; otherwise, over the add-ons, each price times all pieces, rounded |
| PricingLaws.GarmentPricedIff | src/modules/orders/orders.price-calculation.ts:239-306 | a garment can be priced if and only if every style, fabric, accessory, add-on and size selected is in its catalogue, with the stock each needs |
| PricingLaws.GarmentPriceInRange | src/modules/orders/orders.price-calculation.ts:239-306 | a garment costs between nothing and its undiscounted base with its components |
| PricingLaws.GarmentPrice | src/modules/orders/orders.price-calculation.ts:239-306 | a custom piece costs its base and components less a percentage or an amount, as the kind of its discount says, never below zero; ready-to-wear costs its selling price and components |
| PricingLaws.LinesShowCosts | src/modules/orders/orders.price-calculation.ts:345-401 | each line of the breakdown shows the cost it is named for, and the customer's own fabric its price times its yards |
| PricingLaws.MoreNeverCostsLess | src/modules/orders/orders.price-calculation.ts:74-120 | more of an item, of whatever kind, can be priced exactly when it can, and never costs less |
| PricingLaws.BreakdownFitsIff | src/modules/orders/orders.price-calculation.ts:314-435 | the shown lines add up to the price before discount, and that less the discount to the final price, to within a hundredth; the second fails if and only if pieces of an accessory on markdown are selected whose number, at the lower price, comes to more than the item's quantity at the full one |
| PricingLaws.AccessoryLinesDoNotFit | src/modules/orders/orders.price-calculation.ts:404-424 | one accessory in the cart and two selected: 100 before, nothing off, 180 to pay |
| Pricing.FinalIsItemTotal | src/modules/orders/orders.price-calculation.ts:308-313 | the breakdown's final is the item total, and one is refused exactly when the other is |
| Pricing.ClampsAgree | src/modules/orders/orders.price-calculation.ts:369-384 | the markdown folded in, or added and taken off with its own clamps, leaves the same price |
| Pricing.ShownDiscountFits | src/modules/orders/orders.price-calculation.ts:369-401 | price before less discount is the final price to within a hundredth |
| Pricing.CalculateOrderTotal | src/modules/orders/orders.price-calculation.ts:49-72 | the rounded sum of the item totals, or nothing if one is refused |
| Pricing.SubtotalIsGoods | src/modules/orders/orders.price-calculation.ts:49-72 | every item total is whole hundredths, so the second rounding changes nothing |
| Pricing.CreateOrder | src/modules/orders/orders.service.ts:130-320 | a new order's total is the sum of its stored item prices and external fabric plus the shipment fees; refused exactly when an item cannot be priced or no shipment is chosen |
| Normalization.ColoursIdempotent | src/modules/orders/orders.service.ts:843-891 | normalising colour selections twice is normalising them once |
| Normalization.ColourPriceIff | src/modules/orders/orders.service.ts:843-891 | where raw colour selections have a price the normalised ones have the same, if and only if each names a quantity or points to a size in stock |
| Normalization.UncountedSelectionIsRefused | src/modules/orders/orders.service.ts:871-871 | a selection that is priced raw and refused normalised |
| Normalization.NormalIsIdempotent | src/modules/orders/orders.service.ts:819-1002 | the same for all five kinds of selections together |
| Normalization.FabricPriceIff | src/modules/orders/orders.service.ts:908-940 | a priced fabric selection keeps its price if and only if the yards filled in are in stock and are the yards charged before, or nothing is charged for them |
| Normalization.AccessoryPriceIff | src/modules/orders/orders.service.ts:944-974 | a priced accessory selection keeps its price if and only if it names a quantity or the named variant has a piece in stock; otherwise it is refused |
| Normalization.NormalizingKeepsPriceIff | src/modules/orders/orders.service.ts:819-1002 | an item priced on raw selections is refused on normalised ones if and only if a selection without a quantity finds an empty shelf or the yards filled in are not in stock; otherwise only the fabric line moves, and without a discount on the whole piece the price moves by exactly that |
| Normalization.NormalizingKeepsPrice | src/modules/orders/orders.service.ts:819-1002 | where yards are named and the other selections are counted, the two prices are the same |
| Normalization.GuessedYardsChangePrice | src/modules/orders/orders.service.ts:908-940 | a fabric selection without yards whose price changes when it is normalised |
| Collections.CollectionService.ApplyCollectionToMatchingProducts | src/modules/products/collection.service.ts:95-170 | exactly the scanned products are placed as the rule says, and the count is the number of products that changed |
| Collections.CollectionService.SyncProductWithCollections | src/modules/products/collection.service.ts:176-246 | the product's list is placed for exactly the relevant collections |
| Collections.CollectionService.IncludeProduct | src/modules/products/collection.service.ts:271-308 | moves the product between the manual lists and adds the membership, unless the collection is another vendor's |
| Collections.CollectionService.ExcludeProduct | src/modules/products/collection.service.ts:313-350 | the converse |
| Collections.LoopsAgreeIff | src/modules/products/collection.service.ts:95-246 | applying and syncing leave a pair alike if and only if both look at it, or neither, or it was right already; they differ in scope only for an active vendor collection without a business |
| Collections.UnownedCollectionDiffers | src/modules/products/collection.service.ts:95-246 | a vendor collection without a business that applying fills and syncing empties |
| Collections.CoveredFollowsRule | src/modules/products/collection.service.ts:95-246 | whatever loops ran in whatever order, a covered pair in scope is as exclude, include and rule say, and every other pair is untouched |
| Collections.ExclusionWins | src/modules/products/collection.service.ts:95-246 | after any loops a covered pair in scope is out if it is excluded, even if included too, and else in if it is included or the rule matches |
| Collections.VendorsKeepApart | src/modules/products/collection.service.ts:271-350 | a hand's inclusion or exclusion does nothing if the collection is neither the platform's nor the caller's, and else ends with the product in one list and not in the other |
| Conditions.ConditionsNarrowOrWiden | src/modules/products/collection.service.ts:680-698 | no condition matches nothing, one condition matches alike, and each further one narrows a rule that wants all and widens one that wants any |
| Collections.ApplyingAndSyncingAgree | src/modules/products/collection.service.ts:95-246 | applying every collection and syncing every product, in any orders, give the same memberships |
| Collections.SettledForever | src/modules/products/collection.service.ts:95-350 | no operation, by loop or by hand, takes a pair in scope away from the rule |
| Collections.LastWordStands | src/modules/products/collection.service.ts:271-350 | what was put in or taken out by hand stays so under any loops |
| Collections.NeverListedTwice | src/modules/products/collection.service.ts:136-150 | no run lists a collection twice on a product |
| Collections.RepeatingChangesNothing | src/modules/products/collection.service.ts:95-246 | both loops are idempotent |
| Discounts.DiscountIsFair | src/modules/products/discount.service.ts:628-675 | a discount never raises a price nor takes it below zero, its percentage is the part of the base it takes off, and a larger one never costs the customer more |
| Discounts.ApplyingStores | src/modules/products/discount.service.ts:271-400 | a discount running for a product is stored, with the price and percentage its kind says, if it includes or matches it and does not exclude it, unless the one stored there costs no more; otherwise just this one is taken away |
| Discounts.SyncingStores | src/modules/products/discount.service.ts:406-491 | what syncing stores is a running discount that matches and lowers the price, with the price and percentage its kind says |
| Discounts.DiscountService.ApplyDiscountToMatchingProducts | src/modules/products/discount.service.ts:271-400 | exactly the vendor's products are priced, cleared or left with a better discount; the count is the number written |
| Discounts.DiscountService.SyncProductWithDiscounts | src/modules/products/discount.service.ts:406-491 | the product gets the first discount strictly below all before it and the base, or is cleared |
| Discounts.ApplyingFindsLowest | src/modules/products/discount.service.ts:271-400 | from no discount, any sequence covering the vendor's live discounts stores the lowest price over those meant for the product |
| Discounts.BestIsLowest | src/modules/products/discount.service.ts:436-471 | syncing finds the lowest price strictly below the base, if there is one |
| Discounts.LoopsAgreeIff | src/modules/products/discount.service.ts:271-491 | without overrides the two loops store the same price and percentage if and only if nothing applies or something that applies saves |
| Discounts.ApplyingStoresLowest | src/modules/products/discount.service.ts:271-400 | the stored price is the lowest over the discounts meant for the product, inclusions and exclusions by hand counted |
| Discounts.SyncingStoresLowest | src/modules/products/discount.service.ts:406-491 | the stored price is the lowest over the discounts whose rule matches and that save something |
| Discounts.PricesAgreeIff | src/modules/products/discount.service.ts:271-491 | whatever is overridden by hand, the two loops store the same price if and only if those two lowest prices round alike, or there is neither |
| Discounts.EmptyDiscountDiffers | src/modules/products/discount.service.ts:271-491 | a discount of nothing that applying stores and syncing does not |
| Discounts.OverrideIsUndone | src/modules/products/discount.service.ts:406-491 | a discount given by hand alone is applied, and the next sync takes it away |
| Discounts.ExclusionIsUndone | src/modules/products/discount.service.ts:406-491 | a product excluded by hand from all that matches it gets no discount, until the next sync gives it one |
| Reservations.ReservationDesk.CreateReservation | src/modules/fabric-reservation/fabric-reservation.service.ts:57-118 | yards leave stock for a new reservation, or the request is refused |
| Reservations.ReservationDesk.ClaimFromReservation | src/modules/fabric-reservation/fabric-reservation.service.ts:259-351 | yards are claimed with a record, and the reservation completes exactly when all are |
| Reservations.ReservationDesk.CancelReservation | src/modules/fabric-reservation/fabric-reservation.service.ts:398-430 | unclaimed yards return to stock |
| Reservations.ReservationDesk.ReleaseExpiredReservations | src/modules/fabric-reservation/fabric-reservation.service.ts:447-485 | every overdue active reservation is expired and its unclaimed yards return |
| Reservations.YardsConserved | src/modules/fabric-reservation/fabric-reservation.service.ts:57-485 | over every run, initial stock is stock plus active and completed reservations plus what was claimed of ended ones; claimed is the sum of claim records; completed exactly when all is claimed |
| Reservations.EndedStaysEnded | src/modules/fabric-reservation/fabric-reservation.service.ts:259-485 | an ended reservation never changes again, so its yards return at most once |
| Reservations.NoneOverdueAfterExpiry | src/modules/fabric-reservation/fabric-reservation.service.ts:447-485 | after a pass no active reservation is overdue |
| Reservations.ReserveThenClaim | src/modules/fabric-reservation/fabric-reservation.service.ts:57-351 | a reservation is made if and only if its yards, deadline and remaining stock allow, and can then be claimed whole up to and on its deadline |
| BespokeService.QuoteDesk.RequestQuotes | src/modules/bespoke/bespoke.service.ts:332-415 | quotes for the new vendors, or a refusal |
| BespokeService.QuoteDesk.SaveQuoteDraft | src/modules/bespoke/bespoke.service.ts:868-910 | an editable quote becomes a draft, with its total if line items came |
| BespokeService.QuoteDesk.SubmitQuote | src/modules/bespoke/bespoke.service.ts:913-975 | an editable quote is submitted with the sum of its lines and its design is quoted, or it expires |
| BespokeService.QuoteDesk.RequestRevision | src/modules/bespoke/bespoke.service.ts:668-698 | a submitted or drafted quote goes back for revision |
| BespokeService.QuoteDesk.AcceptQuote | src/modules/bespoke/bespoke.service.ts:456-634 | accepting by wallet: an order is found or made, the wallet is debited, and the quote wins; if finalising fails the wallet is refunded and what was saved stays |
| BespokeService.QuoteDesk.AcceptQuoteByCard | src/modules/bespoke/bespoke.service.ts:489-666 | accepting by card: an order is found or made, and its payment begins |
| BespokeService.QuoteDesk.FinalizeCheckoutOrder | src/modules/webhook/webhook.service.ts:223-282 | the first payment of an order marks it paid, accepts its quote unless that is accepted, and puts the design into production, whatever it was |
| BespokeService.QuoteDesk.FinalizeBespokeOrder | src/modules/bespoke/bespoke.service.ts:103-127 | saved in this order, as far as it gets: the accepted quote, the declined siblings, the design in production, the paid order |
| BespokeService.QuoteDesk.CancelDesign | src/modules/bespoke/bespoke.service.ts:289-326 | open quotes are declined and the design cancelled, unless it is in production |
| BespokeService.QuoteDesk.ExpireQuotes | src/modules/bespoke/bespoke.service.ts:1015-1029 | exactly the overdue editable quotes expire |
| BespokeLaws.DistinctIfCounted | src/modules/bespoke/bespoke.service.ts:381-388 | the existence check also refuses a vendor named twice |
| BespokeLaws.FewQuotes | src/modules/bespoke/bespoke.service.ts:332-415 | in every reachable state a design has at most five quotes, from distinct vendors |
| BespokeLaws.RequestTerms | src/modules/bespoke/bespoke.service.ts:332-415 | asking known vendors, each once and none asked before, makes a quote with each that lasts seven days, if and only if the design is the customer's, undecided, and gets no more than five |
| BespokeLaws.ProtocolIsSafeIff | src/modules/bespoke/bespoke.service.ts:98-1029 | a run ends with at most one quote of a design accepted, that design in production with it, the others declined or expired, and none open once cancelled, if and only if no card payment completed in it for another quote of a design in production and no acceptance failed between saving its quote and its design |
| BespokeLaws.FinalIsAbsorbingIff | src/modules/webhook/webhook.service.ts:322-345 | a run leaves a design that is in production or cancelled, and its quotes, as they are if and only if no card payment completes in it that accepts one of those quotes |
| BespokeRuns.TwoQuotesAccepted | src/modules/webhook/webhook.service.ts:322-345 | a run from an empty desk in which a late card payment makes a second quote accepted |
| BespokeRuns.CancelledDesignIsProduced | src/modules/webhook/webhook.service.ts:266-280 | a run in which a cancelled design goes into production |
| BespokeRuns.TornAcceptance | src/modules/bespoke/bespoke.service.ts:622-634 | a run in which an acceptance fails, is refunded, and leaves its quote accepted on a design that is only quoted |
| BespokeRuns.RefundedAcceptanceStands | src/modules/bespoke/bespoke.service.ts:622-634 | a run in which an acceptance fails at recording the earnings, is refunded, and its order stays paid |
| BespokeCharges.RunOrdersFit | src/modules/bespoke/bespoke.service.ts:489-592 | in every reachable state each quote has at most one order waiting to be paid, for the total it was first attempted at since its vendor last declined it, and a paid order's quote is accepted |
| BespokeCharges.AcceptChargesStandingOffer | src/modules/bespoke/bespoke.service.ts:489-634 | after every run an acceptance by wallet takes that total, or the current one if none stands; it is the current one if and only if no other stands; if finalising fails it is given back, and the quote is accepted all the same once it was saved |
| BespokeRuns.RevisedQuoteChargesOldTotal | src/modules/bespoke/bespoke.service.ts:489-592 | a run from an empty desk, with a card payment left and a revision, that takes 50 for a quote of 80 |
| WeekKey.QuotientIsExact | src/modules/assistant/assistant-digest.service.ts:33-49 | the rounded quotient is a whole number of weeks already, whatever year it is taken from |
| WeekKey.WeekNumberRange | src/modules/assistant/assistant-digest.service.ts:33-49 | the week number is between 1 and 53 unless the year of its Thursday is one of 0 to 99 |
| WeekKey.KeyIsIsoIff | src/modules/assistant/assistant-digest.service.ts:33-49 | the key is that of section 2.2.10 of ISO 8601:2004, the year of the week's Thursday and the count of that year's Thursdays, if and only if neither the date's year nor that year is one of 0 to 99 |
| WeekKey.SameKeyIffSameWeek | src/modules/assistant/assistant-digest.service.ts:33-49 | two such dates have the same key if and only if they fall in the same Monday-to-Sunday week |
| WeekKey.TwoDigitYearsCollide | src/modules/assistant/assistant-digest.service.ts:33-49 | a date of the years 0 to 99 is read as one of the years 1900 to 1999, in another week, and gets a wrong key |
| WeekKey.NewYear100IsMisread | src/modules/assistant/assistant-digest.service.ts:33-49 | 1 January 100 is read right and gets a wrong key, its week being one of the year 99 |
| Digests.Store.GenerateForBusiness | src/modules/assistant/assistant-digest.service.ts:111-155 | a digest is made exactly when the business has orders and none of that week; the digest returned is of that week |
| Digests.OneDigestAWeek | src/modules/assistant/assistant-digest.service.ts:111-155 | no business has two digests of the same week |

## Left out

- SettlementLaws.SettlementConserves: does not cover runs with an unwind or an auto-reject; RefundRuns.RefundsExactIff covers those.
- StatusLaws.DecisionOrderIsImmaterial: orders with fabric legs are not covered, as declining a leg cancels another vendor's garment.
- SettlementLaws.RejectItemsSettles: `order.subtotal` keeps the external fabric of rejected items, as in the code; the invariant says so.
- RecordProtocol.RecordedAtMostOnce: a crash leaves the rest unrecorded for good, since the claim is never given back, as in the code; an error in a fabric vendor's payout, which the code only logs, is not modelled.
- ReleaseProtocol.CreditedAtMostOnce: takes a failed credit to have moved no money; CreditsCounted and PaidTwiceIff do not.
- ReleaseRaces.ReversalIsExactIff: one earning, one release and one reversal; several earnings or instances against a reversal are not stated, several releases are in ReleaseProtocol.
- ReleaseRaces.PenaltyIsExactIff: one earning, one release and one penalty.
- Pricing.FinalIsItemTotal: prices, yards and quantities are non-negative, as the schemas demand; arithmetic is real, not floating point.
- PricingLaws.StyleCostMeaning: a style, accessory or fabric always has a price; an unset one, which the code turns into NaN, is not modelled.
- PricingLaws.BreakdownFitsIff: discount values are taken to be non-negative.
- Normalization.NormalizingKeepsPriceIff: says nothing of raw selections that have no price; under a discount on the whole piece a changed fabric line may round to the same price.
- Normalization.ColourPriceIff: sizes are compared in lower case for the letters A to Z only.
- Collections.CoveredFollowsRule: rules do not read the stored list of collections; how a condition reads a product is a parameter.
- Discounts.LoopsAgreeIff: liveness is judged at one moment for the whole sequence.
- Digests.Store.GenerateForBusiness: overlapping calls for one business are not modelled; metrics and the summary are parameters.
- LedgerService.Ledger.Reconcile: reads and writes a wallet in two database calls; taken as one atomic step.
- Reservations.ReservationDesk.ClaimFromReservation: creating the reservation order is taken to succeed, although the order schema does not list its type; fees and payment are left out.
- BespokeService.QuoteDesk.FinalizeCheckoutOrder: one step; failures inside it, which the code only logs, and the earnings it records are left out.
- BespokeCharges.AcceptChargesStandingOffer: what a declined order refunds is not modelled; wallets are topped up freely.
- BespokeService.QuoteDesk.FinalizeBespokeOrder: recording and dating the vendor's earnings is left out; Ledger.Record and Ledger.ScheduleUpfront are their own members.
- Refunds, reversals and inventory restores whose failure the code only logs are taken to succeed; restoring inventory changes nothing here.
- `cancelOrder`, disputes, returns and `cancelPendingEarnings`: they do not keep the settlement or ledger invariants.
- Fulfilment, couriers, notifications, mail, sockets, payment providers and language models: calls to the outside.
- Controllers, guards, pagination, charts, carts and authentication: thin or single-branch code.
