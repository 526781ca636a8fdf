# Shop ledger verification

A Dafny 4.11 model of a shop-management backend (catalog, stock, deliveries,
money owed both ways, cash, and the two protocols its mobile clients depend on),
with proofs of what the code and its documentation promise. Everything is in
mathematical integers: kobo for money, base units for stock, milliseconds for
time. `dafny verify dfyconfig.toml` checks the whole project.

## The system, and how it is laid out

**The stock ledger.** An append-only list of movements and a cache of balances,
one row a product, option, location and lot. `Fefo` is the pick by expiry,
`Ledger` and `Stock` the movements and the cache, `Operations` opening lots,
transfers, adjustments and the move into an option, `Stocktake` the posting of a
count, `StockLevels` the rebuild. `StocktakeTheorems` and `CountTheorems` prove the
count, `StockOutcomes` and `CountOutcomes` say which calls are accepted, which lots
give and what is left behind, `LedgerRuns` every run of all of it together, and
`StockServices` is the service itself: a class over the tables whose loops are proved
to end in exactly the books the specification gives, and to change nothing when they
refuse.

**Deliveries.** `DeliveryFee` splits a driver's fee, `Deliveries` records and
corrects, `DeliveryTheorems` and `DeliveryRuns` prove what one step keeps,
`ArrivalOutcomes` and `DeliveryOutcomes` that what was entered or stated is what is left,
`ShopRuns` what every run of deliveries, corrections, ledger operations and
vendor dealings keeps, and `DeliveryServices` is the service over the tables.
`Payables` and `PayablesOutcomes` are what is owed to vendors.

**Two protocols.** `Idempotency` makes every database call of every request a
step of its own, in any order, over one clock, and `IdempotencyProgress` proves that
keys are given, given back and taken over; `RequestBody` is what makes two
bodies the same one. `SyncFeed` is the keyset feed: writers whose rows appear when
they commit, and a client that pages behind the clock.

**Money owed by customers.** `Allocation` splits a payment, `Accounts` proves the
books balance over every run, `AccountOutcomes` what a payment settles, `Receivables`
is the list, its groups, and the services.

**Exact parsing and planning.** `Naira` reads amounts, `Barcode` check digits,
`Cash` and `CashOutcomes` the oldest cash not banked and the banking of it,
`SellingUnits`, `ImportText`, `ProductImport`, `ImportTheorems`, `ImportCategories`,
`ImportOutcomes`, `ImportProducts` and `ImportRows` the catalog import.

A specification function says what an operation leaves behind; where the source
changes things step by step, a method with the source's own loop is proved against
that function; the theorems are about the function, so they hold of the method. A
service call that the source runs in one transaction is one step. A refused call
changes nothing. Every lemma turns automatic induction off, so each inductive
proof is the one that is written.

## Where the code and its documentation part

- Vendor bills (src/modules/payables/supplier-bill.service.ts:133-164): a balance is
  not meant to go below zero, but the edit guard looks at what was paid and not at
  what was credited. `EditBelowACreditIsAccepted` is such a run, and
  `NeverNegativeExactlyWhenGentle` says exactly which runs stay at zero or above.
- Vendor bills (src/modules/payables/supplier-bill.service.ts:166-188): a bill is not to
  be removed from under what was settled against it, but the guard looks at payments and
  not at credits. `RemovalUnderACreditIsAccepted` is such a run,
  `CreditsKeepTheirBillsExactly` the condition, and payments do keep their bills
  (`PaymentsKeepTheirBills`).
- Sync (src/common/pagination/keyset-cursor.ts:45-57): a second of lag covers writes
  that commit within a second, and src/prisma/prisma.service.ts:28 allows thirty.
  `ASlowSaveIsSkipped` loses a row for good; `LagCoversExactly` is the condition
  before a call, `NeverMissesExactly` over a run.
- Sync (src/modules/inventory/sync.service.ts:105-111): a null cursor is said to mean
  the client is caught up; a page size of zero gives one without that
  (`AskingForNothingSkips`).
- Idempotency (src/common/idempotency/idempotency.interceptor.ts:201-208): a takeover
  leaves the row's expiry as it was, so a handler can outlive its row and a retry
  work beside it. `RetentionCoversExactly` says of which runs,
  `TakeoverIsJoinedExactly` what a takeover could check, and `ExpiryLetsTwoRun` is
  such a run.
- Cash (src/modules/cash/cash.service.ts:273-295, 489-497): nobody is said to confirm
  their own banking; the rule lets the owner. `AnOwnerConfirmsTheirOwn` is such a run,
  and `SelfConfirmedExactly` says that no other run does it.
- Cash (src/modules/cash/cash.ts:60-71): a negative holding is explained by paying out
  more than was taken. Voiding a receipt whose cash was banked gives one with nothing
  paid out (`VoidingAfterBankingGoesShort`), as does raising an expense
  (`RaisingAfterBankingGoesShort`); neither call looks at what is held.
  `ShortExactlyWhenNotCovered` is the condition.
- Import (src/modules/catalog/product-import.ts:533-555): a preview can list a category
  that nothing it adds is in (`AFailedRowStillMakesItsCategory`,
  `AFailedOptionStillMakesItsCategory`); `NoneUnusedExactly` is the condition. A save
  never makes one, for it is refused while a row is in error
  (src/modules/catalog/product-import.service.ts:43-48, `SavedMakesNoneUnused`).

## Model

| member | source | states |
|---|---|---|
| LedgerRuns.CacheAlwaysAgrees | README.md:56 | Load-bearing assertion, over every run of stock in, stock out, opening lots, transfers, adjustments, moves into an option, posted counts and rebuilds: one balance a key, the balances answer every question (all stock, one key, one item, one product, one lot) as the sum of the movements does, and a rebuild would report nothing |
| LedgerRuns.NegativeIsAlwaysForced | src/modules/inventory/stock.service.ts:240-305 | Over every run, a negative balance means an earlier forced movement with a reason that is not blank on the same product, location and lot, whatever option the stock has been moved under since; so a run in which nothing is forced has no negative balance |
| LedgerRuns.RunOnlyAdds | src/modules/inventory/stock.service.ts:113-118 | Over every run of stock in, stock out, opening lots, transfers, adjustments, moves into an option, posted counts and rebuilds the ledger is append-only: the movements so far are a prefix of the movements later, and none of these steps changes a lot there was |
| ShopRuns.MovementsStand | src/modules/inventory/stock.service.ts:113-118 | Over every run of the whole shop, deliveries and their corrections and vendor dealings too, no movement is changed or taken away (lots are: corrections restate their figures) |
| Ledger.NothingForcedNothingNegative | src/modules/inventory/stock.service.ts:240-305 | Books in which negatives are accounted for and no movement is forced have no negative balance |
| Stock.OutboundSound | src/modules/inventory/stock.service.ts:240-305 | Stock out keeps the balance table equal to the movements, forced or not |
| Stock.OutboundOnHand | src/modules/inventory/stock.service.ts:240-305 | Exactly what was asked leaves the item at that location, and every other item at every location stays |
| Stock.AllocationsTotal | src/modules/inventory/stock.service.ts:246-302 | The lots drawn on and the lot that bears a forced shortfall add up to exactly the request |
| Stock.PickWithinBalance | src/modules/inventory/stock.service.ts:531-551 | A pick never draws more from a lot than the lot has |
| Stock.UnforcedIsRefusedExactlyWhenShort | src/modules/inventory/stock.service.ts:246-262 | Unforced, a request is refused exactly when positive stock falls short of it, and the refusal names the shortfall |
| Stock.WithinOnHandIsNeverShort | src/modules/inventory/stock.service.ts:240-305 | Asking for no more than is on hand is never refused for shortage, even when some lots are negative |
| Stock.OnlyForceGoesNegative | src/modules/inventory/stock.service.ts:553-610 | A balance that goes below zero in one call is explained by the forced movement that call wrote |
| Stock.OutboundAccounted | src/modules/inventory/stock.service.ts:240-305 | Stock out keeps every negative balance explained |
| Stock.InboundKeeps | src/modules/inventory/stock.service.ts:143-171 | Stock in keeps the cache equal to the ledger and every negative balance explained |
| Stock.InboundOnHand | src/modules/inventory/stock.service.ts:143-171 | Stock in raises its own item by the quantity and nothing else |
| Operations.NewLotsIsPostedOneByOne | src/modules/inventory/stock.service.ts:183-233 | The three bulk inserts leave the books that one movement and one increment at a time would have |
| Operations.NewLotsKeeps | src/modules/inventory/stock.service.ts:183-233 | Bulk opening stock keeps the cache equal to the ledger |
| Operations.MoveIntoVariantMovesItAll | src/modules/inventory/stock.service.ts:411-466 | Afterwards nothing is left under no option, each lot has under the option what it had under both, and no total moves |
| Operations.MoveIntoVariantKeeps | src/modules/inventory/stock.service.ts:411-466 | A negative balance carried into an option stays explained by the movement that forced it |
| Operations.TransferConserves | src/modules/inventory/stock-operations.service.ts:151-211 | A transfer changes neither the total nor any lot's total, forced or not |
| Operations.TransferOnHand | src/modules/inventory/stock-operations.service.ts:151-211 | What was asked for leaves one location and the same arrives at the other |
| Operations.TransferKeeps | src/modules/inventory/stock-operations.service.ts:151-211 | A transfer keeps the cache equal to the ledger and negatives explained |
| Operations.AdjustKeeps | src/modules/inventory/stock-operations.service.ts:51-139 | An adjustment moves its item by exactly the difference, and keeps the ledger sound |
| Ledger.PostAllSum | src/modules/inventory/stock.service.ts:624-658 | Whatever question is asked, the balances move by exactly the sum of the movements posted |
| Fefo.OrderOfRowsIsIrrelevant | src/modules/inventory/fefo.ts:42-60 | Two orders of the same distinct lots sort to the same sequence, so the result does not depend on the order rows come in |
| Fefo.TakenIsCovered | src/modules/inventory/fefo.ts:74-97 | A pick takes exactly the smaller of the request and the positive stock, in positive amounts |
| Fefo.EachLotDraws | src/modules/inventory/fefo.ts:74-97 | Every lot gives exactly what is left of the request after all the lots before it, and no more than it has |
| Fefo.EarlierLotsEmptyFirst | src/modules/inventory/fefo.ts:74-97 | No lot is touched before every lot ahead of it is emptied |
| Fefo.LeftIsLessTheDraw | src/modules/inventory/fefo.ts:60-97 | What a pick leaves is each lot less what it drew, still in picking order, so a second pick starts from what the first left |
| Fefo.PickingTwiceIsPickingOnce | src/modules/inventory/fefo.ts:74-97 | Taking one quantity and then another draws the same from each lot as taking both at once |
| Fefo.AllocateFefo | src/modules/inventory/fefo.ts:74-97 | The loop refuses exactly the quantities that are not positive; otherwise taken and shortfall add up to the request and the shortfall is what positive stock does not cover |
| Fefo.FirstExpiredFirstOut | src/modules/inventory/fefo.ts:42-97 | Of two lots in any list, nothing is taken of the one to leave second until the first has given all it has: the first goes off sooner (no expiry last), or of one expiry came in sooner, or has the lower id |
| StockOutcomes.OutboundIsFirstExpired | src/modules/inventory/stock.service.ts:240-305 | The same of the balances: stock out that lowers a lot has left nothing on any lot of the item here that should leave first, and has not taken it below zero unless it was forced |
| StockOutcomes.ShortfallFallsOnTheFirst | src/modules/inventory/stock.service.ts:576-610 | A forced shortfall is borne by the lot that should leave first of all the item has had here, empty or negative ones too |
| StockOutcomes.OutboundAcceptedExactly | src/modules/inventory/stock.service.ts:240-262 | Stock out is accepted if and only if it asks for something, names an option allowed, and is covered by what is on the shelf or forced by somebody who may, with a reason, onto a lot there is; each refusal says which of these failed |
| StockOutcomes.OutboundIsOnRecord | src/modules/inventory/stock.service.ts:262-305 | What is written is of the item and place asked, of the kind and cause given, and forced, with its reason, if and only if stock was short |
| StockOutcomes.InboundExactly | src/modules/inventory/stock.service.ts:143-172 | Stock in is accepted if and only if it brings something, of an option allowed, on a lot there is; it moves that one balance and is recorded as asked |
| StockOutcomes.NewLotsExactly | src/modules/inventory/stock.service.ts:183-238 | Opening stock is accepted if and only if each line brings something of an option allowed; each line opens its own lot, of its own figures, holding its own quantity, and nothing else moves |
| StockOutcomes.TransferByLot | src/modules/inventory/stock-operations.service.ts:151-221 | A transfer moves what stock out would take, lot for lot, to the other location, and no other balance |
| StockOutcomes.AdjustExactly | src/modules/inventory/stock-operations.service.ts:51-149 | Writing on goes onto the lot named or opens a lot of it; writing off is stock out, as damage when said to be; only the item's own balances here move |
| StockOutcomes.MoveIntoVariantMovesNothingElse | src/modules/inventory/stock.service.ts:411-466 | Moving stock into an option touches no other product and no other option |
| StockOutcomes.OptionAllowedExactly | src/modules/catalog/variants.ts:65-100 | A product without options is named without one; one with options by one of its own, retired ones too but for stock received or sold |
| StockOutcomes.TransferIsOnRecord | src/modules/inventory/stock-operations.service.ts:151-221 | A transfer is recorded as leaving one location and arriving at the other, for no other cause |
| StockOutcomes.MoveIntoVariantIsOnRecord | src/modules/inventory/stock.service.ts:411-466 | A move into an option is recorded as leaving no option and arriving under that one |
| CountTheorems.PostingSettlesTheCount | src/modules/inventory/stocktake.service.ts:254-304 | A count with one line an item is refused exactly when it has no line or a line names no option where it must; otherwise every counted item is at its count afterwards and every item not counted, there or anywhere, is where it was |
| CountTheorems.PostingAgainWritesNothing | src/modules/inventory/stocktake.service.ts:254-304 | Posting the same sheet to the books it left writes nothing |
| CountTheorems.PostProductOk | src/modules/inventory/stocktake.service.ts:312-406 | One product's corrections are never refused, for shortage or for want of a lot, even with negative lots about |
| StocktakeTheorems.PostProductBalances | src/modules/inventory/stocktake.service.ts:312-406 | The freed-lot queue ends empty, the transfers net to zero on every lot, the adjustments sum to the product's net variance, and every item moves by exactly its own variance |
| StocktakeTheorems.PostProductAdjustsOneWay | src/modules/inventory/stocktake.service.ts:312-406 | Every adjustment left over has the sign of the product's net variance, and there is none when that is zero |
| CountTheorems.SurplusFound | src/modules/inventory/stocktake.service.ts:439-472 | A surplus always has a lot to go on: one of the product's, or one made for it |
| CountOutcomes.SurplusExactly | src/modules/inventory/stocktake.service.ts:439-472 | A surplus belongs to the lot of the product with stock here that came in last; with none here, to the last received into anywhere; with none, to a lot made for it of nothing received |
| CountOutcomes.SurplusLandsThere | src/modules/inventory/stocktake.service.ts:380-404 | What is left of an over option when the freed lots are used up goes onto that lot and nowhere else |
| CountOutcomes.CountIsOnRecord | src/modules/inventory/stocktake.service.ts:254-406 | A count posted writes only its own movements, at its location: transfers between options and adjustments, none forced |
| StockServices.StockService.ApplyToBalance | src/modules/inventory/stock.service.ts:624-658 | The update-or-create loop leaves the table with every row of the key moved, or one row more |
| StockServices.StockService.RecordInbound | src/modules/inventory/stock.service.ts:143-171 | The method refuses or writes exactly as specified, and changes nothing when it refuses |
| StockServices.StockService.RecordOutbound | src/modules/inventory/stock.service.ts:240-305 | Picks, refuses or forces, then writes a movement a lot: the books its specification gives, unchanged on refusal |
| StockServices.StockService.CoverShortfall | src/modules/inventory/stock.service.ts:553-610 | The lot that bears a shortfall, or the refusal for authority or reason, and the placeholder lot when there is no other |
| StockServices.StockService.RecordNewLots | src/modules/inventory/stock.service.ts:183-233 | Three bulk inserts, or a refusal that changes nothing |
| StockServices.StockService.MoveAllIntoVariant | src/modules/inventory/stock.service.ts:411-466 | The loop over balances leaves the books the specification gives |
| StockServices.StockService.TransferStock | src/modules/inventory/stock-operations.service.ts:151-211 | Out of one location and lot for lot into the other, or unchanged |
| StockServices.StockService.RebuildBalances | src/modules/inventory/stock-level.service.ts:267-345 | The strike-off loop reports exactly the drift and replaces the rows only when there is some |
| StockServices.StockService.PostShorts | src/modules/inventory/stocktake.service.ts:336-369 | The loop over short options, decrementing what is still to move and queueing the lots freed |
| StockServices.StockService.FillFrom | src/modules/inventory/stocktake.service.ts:371-389 | The loop that takes lots off the head of the freed queue, splitting the last; it ends because the queue or the want shrinks |
| StockServices.StockService.PostOneProduct | src/modules/inventory/stocktake.service.ts:312-406 | Both loops of one product's corrections, as specified |
| StockServices.StockService.PostSheet | src/modules/inventory/stocktake.service.ts:254-304 | A whole count as one transaction: posted as specified or rolled back |
| StockServices.StocktakeSheet.Count | src/modules/inventory/stocktake.service.ts:165-210 | One line an item, the last count given for an item standing; refused once closed, and for the first line whose product is not in the catalog, keeps no stock, or has its option wrong |
| StockServices.StocktakeSheet.Post | src/modules/inventory/stocktake.service.ts:254-304 | An open sheet posts once; on success each counted item is at its count and nothing else moved; on refusal neither ledger nor sheet changes |
| StockServices.StocktakeSheet.Cancel | src/modules/inventory/stocktake.service.ts:409-418 | Only an open sheet is cancelled |
| StockLevels.DriftIsExact | src/modules/inventory/stock-level.service.ts:290-326 | With one row a key, the report is empty exactly when every row is right and no key that moved lacks a row |
| CountOutcomes.ReportExactly | src/modules/inventory/stock-level.service.ts:290-326 | With one row a key, a balance is reported if and only if its row is not the sum of its movements or it moved and has no row; the report says what it was and what it is |
| StockLevels.NoDriftMeansAgreement | src/modules/inventory/stock-level.service.ts:262-266 | An empty report is the proof that cache and ledger give the same answer to every question |
| StockLevels.RebuildRestoresAgreement | src/modules/inventory/stock-level.service.ts:267-345 | From any cache at all, after a rebuild every question is answered as the ledger answers it |
| StockLevels.RebuildTwiceIsOnce | src/modules/inventory/stock-level.service.ts:267-345 | Run again, it reports nothing and changes nothing |
| StockLevels.RebuildFindsNothingOnSound | src/modules/inventory/stock-level.service.ts:267-345 | On books kept by the operations it reports nothing and changes nothing |
| StockLevels.RebuildMakesSound | src/modules/inventory/stock-level.service.ts:267-345 | A cache with one row a key that the rebuild finds wrong is a sound ledger again afterwards; when it finds nothing it writes nothing, and a row of zero with no movement may stay |
| DeliveryFee.SplitIsExact | src/modules/inventory/delivery-fee.ts:22-68 | It throws exactly on a positive fee over a non-empty delivery of which nothing arrived; otherwise the shares sum to the fee and a line where nothing arrived has none |
| DeliveryFee.SplitByLargestRemainder | src/modules/inventory/delivery-fee.ts:22-68 | By value of what arrived, or by quantity when all of it cost nothing: each share is the whole kobo of the line's part of the fee or one more, and a line with the one more has a larger part of a kobo over than any without, or as large on an earlier line |
| DeliveryFee.QuotaRule | src/modules/inventory/delivery-fee.ts:34-58 | Each share is the floor of its exact quota or one more, and one more only with a remainder |
| DeliveryFee.ExtraNeedsRemainder | src/modules/inventory/delivery-fee.ts:40-58 | Only a line with a remainder gets a kobo of what is left over |
| DeliveryFee.LargerWeightLargerShare | src/modules/inventory/delivery-fee.ts:22-60 | A larger weight never gets a smaller share |
| DeliveryFee.NothingToWeigh | src/modules/inventory/delivery-fee.ts:62-68 | The weights are all zero exactly when the guard says the fee has nowhere to go |
| DeliveryFee.HandOut | src/modules/inventory/delivery-fee.ts:48-58 | The loop that increments shares down the order until nothing is left |
| DeliveryFee.SplitDeliveryFee | src/modules/inventory/delivery-fee.ts:22-60 | Floors, then the loop, as specified |
| ShopRuns.DeliveriesAlwaysAgree | src/modules/inventory/delivery-correction.service.ts:105-338 | Over every run of deliveries, corrections, ledger operations and payables calls, on every line of every delivery: lot and line quantities agree and equal the sum of the delivery's own movements on the lot, the lot total is the line value plus its share of the fee, and the shares sum to the fee |
| ShopRuns.GapNeverMoves | src/modules/inventory/delivery-correction.service.ts:152-172 | Over every run, while its bill stands and nobody edits or removes it by hand, amount due less the sum of the line values never changes |
| ShopRuns.RunKeeps | src/modules/inventory/receiving.service.ts:206-326 | The whole-shop invariant (ledger sound, deliveries consistent, lots and bills apart, vendors never overpaid) over every run |
| DeliveryRuns.ReceiveKeeps | src/modules/inventory/receiving.service.ts:142-327 | Recording a delivery keeps the whole-shop invariant and enters its lines at their values |
| DeliveryRuns.CorrectKeeps | src/modules/inventory/delivery-correction.service.ts:83-338 | A correction keeps the whole-shop invariant, though it breaks and repairs lot totals on the way, and moves a live bill by exactly the change in value |
| DeliveryRuns.ShareTheFeeKeeps | src/modules/inventory/delivery-correction.service.ts:622-666 | Sharing the fee again brings every lot to its line value plus its share and leaves quantities and values alone |
| DeliveryRuns.PlanAcceptsExactly | src/modules/inventory/delivery-correction.ts:118-208 | Planning refuses exactly when a stated line is not on the delivery, is stated twice or makes no sense, or when nothing at all would change |
| DeliveryTheorems.SameProductKeeps | src/modules/inventory/delivery-correction.service.ts:187-261 | A change of figures or option keeps the line, its lot and its movements agreeing, and touches no other delivery |
| DeliveryTheorems.ToRightProductKeeps | src/modules/inventory/delivery-correction.service.ts:352-498 | A change of product empties the old lot of this delivery and leaves line, new lot and movements agreeing |
| DeliveryTheorems.PinnedStays | src/modules/inventory/stock.service.ts:531-551 | A request pinned to a lot draws on that lot alone, forced or not |
| Deliveries.DisplayUnitIsExact | src/modules/inventory/delivery-correction.ts:217-231 | With a base unit there is always a unit to show; it holds both figures whole, and no larger one would |
| DeliveryServices.DeliveryService.Create | src/modules/inventory/receiving.service.ts:142-327 | Bill, lots, lines and movements as specified, or everything as it was |
| ArrivalOutcomes.ReceivedExactly | src/modules/inventory/receiving.service.ts:142-204 | A delivery is taken if and only if it is new, no line is given twice, the payment at the door is no more than is asked, the fee has lines to join, and each line brings something its product allows on a lot of its own |
| ArrivalOutcomes.ReceivedAsEntered | src/modules/inventory/receiving.service.ts:206-290 | It leaves a line for each entry as entered; each line's lot with its product, expiry, day and figures, at its value and share of the fee; its stock at the delivery's location; and no other lot or balance moves |
| ArrivalOutcomes.BilledAsEntered | src/modules/inventory/receiving.service.ts:169-179 | Its vendor is owed what was said to be due, or what the lines come to, and what was paid at the door is recorded against that bill in full |
| DeliveryOutcomes.CorrectLeavesWhatWasStated | src/modules/inventory/delivery-correction.service.ts:105-338 | An accepted correction leaves each line stated with the figures, product and option stated, and every other line as it was but for its share of the fee |
| DeliveryOutcomes.BillMovesAsStated | src/modules/inventory/delivery-correction.service.ts:152-172 | The live bill moves by the sum over the lines stated of what is stated as charged less what was recorded; no other bill, payment or rebate moves |
| DeliveryOutcomes.StockMovesAsStated | src/modules/inventory/delivery-correction.service.ts:352-571 | Balance by balance, what was recorded of each line stated leaves the lot and option it is in, and what was stated arrives on the lot and under the option it belongs to; nothing else moves |
| DeliveryOutcomes.CorrectLots | src/modules/inventory/delivery-correction.service.ts:352-571 | No lot changes what it is of, when it goes off or when it came in; a line of another product gets a lot of its own, going off when the old one did and dated the delivery's day |
| DeliveryOutcomes.PlannedExactly | src/modules/inventory/delivery-correction.ts:118-208 | A correction is planned if and only if each line stated is on the delivery, once, in figures that make sense, and something stated is news or the fee is |
| DeliveryOutcomes.BillAllowsExactly | src/modules/inventory/delivery-correction.service.ts:152-172 | It is refused for its bill if and only if the bill stands, its value moves, and it would fall below what was paid and credited |
| DeliveryServices.DeliveryService.MakePlan | src/modules/inventory/delivery-correction.ts:118-208 | The loop pushing changes and problems computes the specified plan |
| DeliveryServices.DeliveryService.MoveToRightProduct | src/modules/inventory/delivery-correction.service.ts:352-498 | The wrong product out of its lot, the right one in as a lot of its own |
| DeliveryServices.DeliveryService.MoveSameProduct | src/modules/inventory/delivery-correction.service.ts:511-571 | Another option on the same lot, or the difference on it |
| DeliveryServices.DeliveryService.ApplyAll | src/modules/inventory/delivery-correction.service.ts:178-268 | The loop over planned changes |
| DeliveryServices.DeliveryService.WriteShares | src/modules/inventory/delivery-correction.service.ts:647-666 | Only shares and lot totals that differ are written, and the result is as if all were |
| DeliveryServices.DeliveryService.Apply | src/modules/inventory/delivery-correction.service.ts:62-338 | The correction as specified or nothing; a preview is refused exactly when the save is, for the same reason, reports what the save does to the value and the bill, and leaves everything as it was |
| Payables.RunNeverOverpays | src/modules/payables/supplier-payment.service.ts:68-113 | Over every run of bills, payments, voids, rebate credits and uncredits, edits and corrections, no bill is paid more than it asks |
| PayablesOutcomes.PayExactly | src/modules/payables/supplier-payment.service.ts:68-113 | A payment is taken if and only if it is of something, of a bill that stands, of no more than is owed, so paying in full is taken; it comes off that bill and no other |
| PayablesOutcomes.VoidExactly | src/modules/payables/supplier-payment.service.ts:161-190 | A payment is voided if and only if it was not; what it took off its bill comes back |
| PayablesOutcomes.CreditExactly | src/modules/payables/vendor-rebate.service.ts:162-205 | A rebate is credited if and only if it stands uncredited and the bill stands, is of its vendor, and owes as much; it comes off that bill and no other |
| PayablesOutcomes.UncreditExactly | src/modules/payables/vendor-rebate.service.ts:210-230 | A credit is taken off if and only if there is one; its bill owes it again |
| PayablesOutcomes.EditExactly | src/modules/payables/supplier-bill.service.ts:133-164 | A bill is edited if and only if it stands and asks no less than was paid; it then asks that, and no other bill moves |
| PayablesOutcomes.RemoveExactly | src/modules/payables/supplier-bill.service.ts:173-188 | A bill is removed if and only if it stands and each payment of it was voided |
| Payables.NeverNegativeExactlyWhenGentle | src/modules/payables/supplier-bill.service.ts:133-164 | A run keeps every balance at zero or above exactly when no accepted edit drops a bill below what was paid and credited together |
| Payables.OnlyAHarshEditGoesNegative | src/modules/payables/supplier-bill.service.ts:133-164 | One step keeps balances from going negative exactly when it is not such an edit |
| Payables.EditBelowACreditIsAccepted | src/modules/payables/supplier-bill.service.ts:139-143 | The guard looks at what was paid only: 100 due, 60 credited and an edit to 50 is accepted, leaving a balance of minus 10 |
| Payables.PaymentsKeepTheirBills | src/modules/payables/supplier-bill.service.ts:166-188 | Over every run no payment that counts is against a bill that was removed |
| Payables.CreditsKeepTheirBillsExactly | src/modules/payables/supplier-bill.service.ts:166-188 | Over every run no rebate is credited on a bill that was removed if and only if each bill removed had nothing credited on it |
| Payables.OnlyAnUntidyRemovalStrands | src/modules/payables/supplier-bill.service.ts:173-188 | One call leaves a credit on a bill that is gone if and only if it is an accepted removal of a bill with something credited |
| Payables.RemovalUnderACreditIsAccepted | src/modules/payables/supplier-bill.service.ts:173-188 | Such a run: 100 due, 60 credited, removed, and the credit stands on a bill that is gone |
| Payables.UncreditUndoesCredit | src/modules/payables/vendor-rebate.service.ts:162-221 | Taking a credit off again restores every table |
| Payables.VoidUndoesPay | src/modules/payables/supplier-payment.service.ts:161-183 | Voiding a payment leaves every bill owing what it owed before it |
| Payables.VendorLedger.BalanceOf | src/modules/payables/balance.ts:65-73 | Paid and rebated, summed from the live rows |
| Payables.VendorLedger.CreatePayment | src/modules/payables/supplier-payment.service.ts:68-113 | Refused above the balance, and no bill overpaid either way |
| Payables.VendorLedger.VoidOne | src/modules/payables/supplier-payment.service.ts:161-183 | Once only, and kept as a row |
| Payables.VendorLedger.CreditOne | src/modules/payables/vendor-rebate.service.ts:162-207 | A rebate credited off a bill of its own vendor, within the balance, and never taking a balance below zero |
| Payables.VendorLedger.UncreditOne | src/modules/payables/vendor-rebate.service.ts:210-221 | Only what is credited |
| Payables.VendorLedger.RemoveOneRebate | src/modules/payables/vendor-rebate.service.ts:148-156 | Only while not credited |
| Payables.VendorLedger.UpdateBill | src/modules/payables/supplier-bill.service.ts:133-164 | The edit guard as written: never below what was paid |
| Payables.VendorLedger.RemoveOneBill | src/modules/payables/supplier-bill.service.ts:173-188 | Refused while a live payment is against it |
| Payables.VendorLedger.BillDelivery | src/modules/payables/supplier-payment.service.ts:125-151 | The bill of a delivery and what was handed over at the door, never more than the bill |
| Payables.VendorLedger.MoveBill | src/modules/inventory/delivery-correction.service.ts:152-172 | A delivery's bill follows its value, never below what was paid and credited |
| Idempotency.AtMostOnce | src/common/idempotency/idempotency.interceptor.ts:57-253 | Over every interleaving of insert, read, judge, takeover, finish, store, release and sweep: while no handler outlives the stale limit and every answer is stored, at most one request of a key is at work or has succeeded until its row runs out |
| IdempotencyProgress.WhatARequestIsTold | src/common/idempotency/idempotency.interceptor.ts:125-216 | A request with nobody in between does the work if and only if its key is free or held by an identical one unanswered for two minutes or more; otherwise it changes nothing and is told that the requests differ, or the stored answer, or that it is under way |
| IdempotencyProgress.ReleaseGivesTheKeyBack | src/common/idempotency/idempotency.interceptor.ts:241-253 | From any reachable state, the release of a failed request whose row stands takes that row, and no other, out of the table |
| IdempotencyProgress.AfterAReleaseTheNextRuns | src/common/idempotency/idempotency.interceptor.ts:241-253 | And the next request of the key to insert does the work |
| IdempotencyProgress.AFailureMayBeRetried | src/common/idempotency/idempotency.interceptor.ts:108-123 | So a request that fails and lets its row go is retried at once, and the retry does the work |
| IdempotencyProgress.AStaleClaimIsTakenOver | src/common/idempotency/idempotency.interceptor.ts:190-216 | A claim read two minutes after its stamp or later, and still untouched, is taken over by an identical request |
| IdempotencyProgress.ASuccessIsStored | src/common/idempotency/idempotency.interceptor.ts:218-239 | A success whose answer is stored leaves it on its own row |
| IdempotencyProgress.ARowGoneIsTriedForOnceMore | src/common/idempotency/idempotency.interceptor.ts:166-180 | A request that looks and finds the row gone tries for the key once more and claims it if free; the second time it is told to wait |
| IdempotencyProgress.SweepExactly | src/common/housekeeping/housekeeping.service.ts:53-59 | A sweep takes out the rows whose time was over when it began, and no others |
| IdempotencyProgress.InsertExactly | src/common/idempotency/idempotency.interceptor.ts:147-165 | An insert claims a free key, for two days from when it was asked for, and sends the request to look otherwise |
| Idempotency.LaterRequestsAreReplayed | src/common/idempotency/idempotency.interceptor.ts:76-107 | Once a request has succeeded and until its row runs out, a request of the key begun since is only ever answered with the stored answer, or told it is a different request |
| Idempotency.AfterASuccess | src/common/idempotency/idempotency.interceptor.ts:76-107 | The same from any moment of any run from the start |
| Idempotency.ReplayIsAGivenAnswer | src/common/idempotency/idempotency.interceptor.ts:76-107 | Whatever the timing, a replay is word for word the answer an identical request of the key was given |
| Idempotency.RaceHasOneWinner | src/common/idempotency/idempotency.interceptor.ts:195-216 | Whatever the timing, of requests racing to take over one stale claim the first to reach the untouched row wins, and no other ever wins it from that stamp |
| Idempotency.OneOwner | src/common/idempotency/idempotency.interceptor.ts:136-216 | Two owners of one key whose rows have not run out are one request |
| Idempotency.RetentionCoversExactly | src/common/idempotency/idempotency.interceptor.ts:199-216 | The exact condition, over every run in which no handler outlives the stale limit and no answer is lost: at some point of it a second request of a key could have come to work beside a first, still with nobody late and nothing lost, if and only if some claim won, with the stale limit after it, goes past the first millisecond in which its row may be swept |
| Idempotency.JoinedExactly | src/common/idempotency/idempotency.interceptor.ts:136-216 | The same of one request at work whose row is the key's: it can be joined if and only if its claim, with the stale limit after it, goes past the first millisecond in which the row may be swept |
| Idempotency.TakeoverIsJoinedExactly | src/common/idempotency/idempotency.interceptor.ts:199-216 | What a takeover could check before it writes: its work can be joined if and only if its new stamp and the stale limit together exceed expiresAt + 1 ms of the row it read |
| Idempotency.AloneWhileWithin | src/common/idempotency/idempotency.interceptor.ts:136-216 | While no claim won goes past that millisecond, no two requests of a key are ever at work at once |
| Idempotency.ExpiryLetsTwoRun | src/common/idempotency/idempotency.interceptor.ts:199-216 | Such a run: a takeover does not renew expiresAt, so a claim taken over as its two days end is swept while its handler works and a second request works beside it, nobody late and no answer lost |
| RequestBody.SameTextExactly | src/common/idempotency/idempotency.interceptor.ts:277-295 | Two bodies come to the same text before hashing exactly when they say the same: key order never matters and anything else always does |
| RequestBody.SortingKeepsMeaning | src/common/idempotency/idempotency.interceptor.ts:284-295 | Sorting keys, at every depth, changes nothing a body says |
| SyncFeed.NothingIsSkipped | src/common/pagination/keyset-cursor.ts:45-57 | Over every interleaving of writers and page reads, when every write under way at a read is younger than the lag, a client that follows cursors, writes over by id and resumes from syncedThrough holds the current version of every row stamped at or before it |
| SyncFeed.LagCoversExactly | src/common/pagination/keyset-cursor.ts:45-57 | The exact condition, known before the call: whatever page size of one or more is asked for, the read leaves no committed row lost, now or as the writes under way end, if and only if every write under way is younger than the lag or has no news in it (its version is in the table, or the client has it and no version of the row is in the window) |
| SyncFeed.NeverMissesExactly | src/common/pagination/keyset-cursor.ts:45-147 | The same over every run and with the page sizes asked for: there is never a committed row to lose if and only if before each read every write under way is too young, or has a whole page to be sent before it, or has no news in it, and the page is of one or more or nothing is there to send |
| SyncFeed.NothingToLoseExactly | src/common/pagination/keyset-cursor.ts:45-57 | However the writes under way end and whatever is written next, no committed row is lost before the client asks again, if and only if it has every version it has moved past, committed or under way |
| SyncFeed.PassedIsLostByCommitting | src/common/pagination/keyset-cursor.ts:45-57 | A write under way that a client has moved past without having it becomes, by committing, a row that no continuation ever brings |
| SyncFeed.SkippedForever | src/common/pagination/keyset-cursor.ts:45-57 | A version passed over is never received in any continuation |
| SyncFeed.ASlowSaveIsSkipped | src/prisma/prisma.service.ts:28 | Why the commit premise is needed: transactions may run thirty seconds, and one two seconds old at a read is lost to that client for good while the client takes itself to be caught up past it |
| SyncFeed.AskingForNothingSkips | src/modules/inventory/sync.service.ts:68-115 | A page size of zero, which the route lets through, returns a null cursor without being caught up, and what was there to send is passed over for good |
| SyncFeed.PageIsTheFirst | src/modules/inventory/sync.service.ts:75-98 | A page is in key order, inside the window and past the cursor; what it leaves out comes after all of it, and only when it is full |
| SyncFeed.ReachExactly | src/common/pagination/keyset-cursor.ts:75-147 | A read gets past a key not passed yet if and only if the key is in the window and fewer rows than the page size come before it |
| SyncFeed.ReadingCatchesUp | src/modules/inventory/sync.service.ts:100-115 | Reading on, with any page size of one or more, catches up: one read more than there are rows to send is enough |
| SyncFeed.LessIsLeft | src/modules/payments/payment.service.ts:282-345 | A full page leaves strictly less to send, a short one nothing |
| Allocation.PlanAcceptsExactly | src/modules/payments/allocation.ts:50-117 | A split is accepted exactly when the payment is something, each invoice is named once and claimed no more than it owes and the payment's way, and the claims are no more than the payment |
| Allocation.SplitIsSafe | src/modules/payments/allocation.ts:50-117 | An accepted split leaves every invoice between zero and what it owed; claimed and unallocated add up to the payment, and unallocated never runs the other way |
| Allocation.OldestIsAccepted | src/modules/payments/allocation.ts:119-146 | Over distinct invoices oldest-first is always accepted and comes to the smaller of the payment and what the matching invoices owe |
| Allocation.OldestGoFirst | src/modules/payments/allocation.ts:119-146 | No invoice is touched before every earlier one running the same way is settled |
| Allocation.PlanAllocations | src/modules/payments/allocation.ts:50-117 | The loop over requested claims computes the specified verdict |
| Allocation.AllocateOldest | src/modules/payments/allocation.ts:126-146 | The loop over outstanding invoices computes the specified claims |
| Accounts.BooksAlwaysBalance | src/modules/payments/receivable.service.ts:108-144 | Over every run of sales, returns, payments, voids and merges, for every account: owed less credit is charged (less refunds) less live payments |
| Accounts.BooksBalance | src/modules/payments/receivable.service.ts:108-144 | The same of any books in which every allocation joins a payment and a sale of one account |
| Accounts.RunJoined | src/modules/payments/payment.service.ts:222-267 | Over every run every allocation joins a payment and a sale of the same account |
| Accounts.OutstandingIsOwn | src/modules/payments/payment.service.ts:234-267 | A payment is offered only its own account's invoices, each once, at its balance, and every one asked for that has money on it |
| Accounts.ByAgeIsOrdered | src/modules/payments/payment.service.ts:240 | Invoices are offered oldest first, the earlier row first when they happened together |
| Accounts.UnnamedIsAlwaysAccepted | src/modules/payments/payment.service.ts:131-220 | A payment that names no invoice is never refused for its split |
| Accounts.PaySettles | src/modules/payments/payment.service.ts:131-220 | A payment brings each of its account's invoices towards zero, never past it, and touches no other account's |
| AccountOutcomes.UnnamedSettlesAllItCan | src/modules/payments/payment.service.ts:160-220 | A payment naming no invoice lowers what is owed its way on the account by the whole of it, or to nothing |
| AccountOutcomes.OldestAreSettledFirst | src/modules/payments/allocation.ts:118-146 | When it touches an invoice, each earlier one of the account with a balance its way is left with nothing on it |
| AccountOutcomes.NamedSettlesItsClaims | src/modules/payments/payment.service.ts:160-220 | A payment naming invoices takes off each exactly what it claims of it, and off no other anything |
| AccountOutcomes.NamedAcceptedExactly | src/modules/payments/payment.service.ts:131-170 | It is accepted if and only if it is of something, by somebody who may if money goes out, on an account there is, and each claim is of a different invoice of the account, its way, of no more than is on it, together no more than the payment |
| AccountOutcomes.VoidExactly | src/modules/payments/payment.service.ts:370-389 | A payment is voided if and only if it was not; each invoice gets back exactly what it took off |
| AccountOutcomes.MergeExactly | src/modules/customers/customer.service.ts:122-167 | Two customers there and not the same may be merged; each sale keeps its balance and the duplicate's go to the other |
| Accounts.VoidUndoesPay | src/modules/payments/payment.service.ts:370-389 | Voiding puts every invoice back where it was before the payment |
| Accounts.MergeAddsPositions | src/modules/customers/customer.service.ts:122-167 | The kept customer's debt and credit become the sum of the two, and the duplicate has neither |
| Accounts.NothingOwedBackWithoutReturns | src/modules/payments/balance.ts:1-57 | Until something is returned, every invoice's balance stays between zero and its total, whatever is paid, voided or merged (price corrections of a sale are not among the steps) |
| Receivables.HeadlineIsItsGroups | src/modules/payments/receivable.service.ts:85-101 | The headline is the sum of its groups, owed and credit alike, and every invoice is in one group |
| Receivables.GroupsAreCustomers | src/modules/payments/receivable.service.ts:147-186 | Each account with an invoice has exactly one group, and it holds that account's own figures |
| Receivables.GroupIsTheStatement | src/modules/payments/receivable.service.ts:108-186 | A customer's group nets to what their statement says is owed, so the two screens cannot disagree |
| Receivables.GroupByCustomer | src/modules/payments/receivable.service.ts:147-186 | The accumulating loop computes the specified groups, whose totals are the headline |
| Receivables.AccountService.CreatePayment | src/modules/payments/payment.service.ts:131-220 | As specified or unchanged, and every allocation still joins one account |
| Receivables.AccountService.VoidPayment | src/modules/payments/payment.service.ts:370-389 | Once only, and kept as a row |
| Receivables.AccountService.MergeCustomers | src/modules/customers/customer.service.ts:122-167 | Sales and payments re-pointed row by row, the duplicate removed, or unchanged |
| Receivables.AccountService.Statement | src/modules/payments/receivable.service.ts:108-144 | The owed and credit it computes differ by what was charged less what was paid |
| Receivables.AccountService.FindOutstanding | src/modules/payments/payment.service.ts:234-267 | The invoices a payment may be put against, or the refusal of another account's |
| Receivables.AccountService.BalanceOf | src/modules/payments/balance.ts:52-57 | Total less live allocations less refunds, summed from the rows |
| Naira.ParseNaira | src/modules/catalog/product-import.ts:706-736 | For any digits either side of the point and any power of ten, the exact amount in kobo rounded half up; an error exactly when the text is not an amount or the amount is past 2^53 - 1 |
| Naira.ReadExactly | src/modules/catalog/product-import.ts:711 | A text is read as whole digits, fraction and power exactly when it writes them |
| Naira.ThirdDecimalDecides | src/modules/catalog/product-import.ts:730 | The third decimal alone says whether the rest is a half kobo or more |
| Naira.KoboIsRounded | src/modules/catalog/product-import.ts:728-731 | Two decimals and a look at the third are the exact value rounded half up |
| Naira.RoundHalfUpIsNearest | src/modules/catalog/product-import.ts:697-705 | The rounding meant: the nearest whole kobo, halves going up, stated without division |
| Naira.MovePoint | src/modules/catalog/product-import.ts:719-727 | The point moved either way by any power, noughts added where digits run out |
| Cash.WalkIsFirstInFirstOut | src/modules/cash/cash.ts:34-58 | The walk back from the newest receipt lands where consuming the oldest money first would; with receipts short of what is held, on the oldest read |
| Cash.OldestUnbankedFor | src/modules/cash/cash.service.ts:457-486 | Reading pages of 200 and stopping early gives the answer of reading the whole history |
| Cash.ShortExactlyWhenNotCovered | src/modules/cash/cash.service.ts:218-270 | Over every run of takings, pay-outs, banking, receipts voided or corrected in price, pay-outs amended or undone: nobody's holding goes below zero if and only if, before each step, what it takes out of somebody's hands (a pay-out, a receipt to be voided, what a correction takes off one, what an amended pay-out adds) is no more than they hold then; banking alone sees to that itself |
| Cash.StepMoves | src/modules/cash/cash.service.ts:218-455 | What each call does to what everybody holds, to the kobo: voiding or correcting a receipt takes it off its taker, amending a pay-out moves it, banking takes it off and never below zero, confirming moves nothing, not received only gives back |
| CashOutcomes.RecordExactly | src/modules/cash/cash.service.ts:218-270 | Banking is recorded if and only if it is one's own or an owner or manager records it, of something, of no more than is held; it is confirmed as written for an owner, or a manager banking somebody else's |
| CashOutcomes.ConfirmExactly | src/modules/cash/cash.service.ts:273-302 | A banking is confirmed if and only if it stands unconfirmed and the one confirming is the owner or a manager who did not hold the cash |
| CashOutcomes.NotReceivedExactly | src/modules/cash/cash.service.ts:304-331 | A banking is marked not received once, by anybody who sees it |
| Cash.VoidingAfterBankingGoesShort | src/modules/payments/payment.service.ts:370-389 | Such a run with nothing paid out: 100 taken, 100 banked, the receipt voided, and its taker holds minus 100 |
| Cash.RaisingAfterBankingGoesShort | src/modules/expenses/expense.service.ts:184-203 | Another: an expense raised by 30 after all of what was held was banked |
| Cash.ConfirmedWithAuthority | src/modules/cash/cash.service.ts:272-302 | Over every run, every confirmed banking was confirmed by the owner or by a manager it was not held by |
| Cash.SelfConfirmedExactly | src/modules/cash/cash.service.ts:248-295 | Over every run, a banking comes to be confirmed by the one who held the cash if and only if an owner records, or confirms, a banking of cash in their own hands |
| Cash.OwnIsConfirmedByOwnerAlone | src/modules/cash/cash.service.ts:273-302 | A standing, unconfirmed banking is confirmed by its own holder if and only if the holder is the owner |
| Cash.AnOwnerConfirmsTheirOwn | src/modules/cash/cash.service.ts:248-266 | Such a run: an owner banks what the owner took and it is confirmed as it is written |
| Cash.NotReceivedGivesBack | src/modules/cash/cash.service.ts:304-331 | Marking a banking not received restores what everybody held |
| Cash.CashService.FiguresFor | src/modules/cash/cash.service.ts:341-455 | Each row added to the one figure it belongs to |
| Cash.CashService.Create | src/modules/cash/cash.service.ts:218-270 | Refused above what is held; otherwise the holding falls by the amount and stays at zero or above |
| Cash.CashService.ConfirmBanking | src/modules/cash/cash.service.ts:272-302 | As specified or unchanged |
| Cash.CashService.VoidBanking | src/modules/cash/cash.service.ts:304-331 | As specified or unchanged |
| Barcode.ChecksExactly | src/modules/catalog/barcode.ts:33-56 | A code of any length carries its check digit exactly when its weighted sum is a multiple of ten |
| Barcode.SubstitutionIsCaught | src/modules/catalog/barcode.ts:33-56 | Any single wrong digit is caught, at any length |
| Barcode.SwapIsMissedExactly | src/modules/catalog/barcode.ts:33-56 | Two neighbours swapped pass exactly when they are equal or five apart |
| Barcode.MistypedIsRefused | src/modules/catalog/barcode.ts:50-56 | One mistyped character of a valid code makes it invalid |
| Barcode.DigitsResolveExactly | src/modules/catalog/barcode.ts:50-168 | A code of digits is told by its length and, of thirteen, a leading two; one that carries a check digit is taken as it is if and only if its weighted sum is a multiple of ten, and one of any other length is taken as it is |
| Barcode.Gs1CheckDigit | src/modules/catalog/barcode.ts:33-44 | The left-to-right loop gives the digit that makes the weighted sum a multiple of ten |
| Barcode.GenerateInternalCode | src/modules/catalog/barcode.ts:116-122 | Whatever eleven digits are drawn, the code is thirteen digits, valid and detected as internal |
| ImportTheorems.PlanNeverFails | src/modules/catalog/product-import.ts:213-695 | No file makes planning throw for want of a unit: the default chooser always finds one that is sold, and a product's base unit is always found (a power of ten too large for JavaScript to pad is not modelled) |
| ImportTheorems.AllRowsOrNone | src/modules/catalog/product-import.ts:668-682 | A product's rows are all added or none, and a row added has a product |
| ImportTheorems.ProductsAreSound | src/modules/catalog/product-import.ts:424-665 | Every product has one unit of factor one and all others of two or more, one sold default, no two options alike, and a SKU new to shop and file |
| ImportProducts.PlannedAsWritten | src/modules/catalog/product-import.ts:288-665 | Every product planned has the name, size, price, barcode, units and selling of the first row of its name and size; each further option the values, barcode and own prices of a later such row; and every row of a name and size the shop lacks is some product's |
| ImportRows.EveryRowIsJudged | src/modules/catalog/product-import.ts:383-422 | The report has a row for each row of the file not blank, in order and under its line: wrong with no name, skipped of a product the shop has, else a row of its own product, and wrong when it repeats the product without an option or one that has none |
| ImportProducts.FirstRowSoundExactly | src/modules/catalog/product-import.ts:424-580 | A first row makes its product if and only if its name, size and category are no longer than 200, 40 and 120, its price is blank or an amount, its units and option can be read, its barcode is valid and new, and no unit has a price with no list |
| ImportOutcomes.RowUnitsAsWritten | src/modules/catalog/product-import.ts:428-526 | A row's units are its base unit of one piece and one for each column that names one, with that column's price, and as many pieces as its count cell says or, of a part of a unit listed, that part of it |
| ImportOutcomes.PartOfAUnitInTheRow | src/modules/catalog/product-import.ts:480-517 | A part n/m of a unit named outright in the row, wherever its column stands, holds n/m of what that unit holds, exactly |
| ImportOutcomes.PortionIsRead | src/modules/catalog/product-import.ts:925-947 | A fraction below one before a unit's name is read as that part of that unit |
| ImportOutcomes.CountIsRead | src/modules/catalog/product-import.ts:745-776 | A whole number of two or more written plainly is read as itself |
| ImportOutcomes.HalfACarton | src/modules/catalog/product-import.ts:480-517 | A carton of 24 and half of one with its count left blank: 12 pieces |
| ImportTheorems.BarcodesAreApart | src/modules/catalog/product-import.ts:237-268 | No barcode is on two products or options of the plan, nor on one of the plan and one of the shop |
| ImportTheorems.SettledIsOk | src/modules/catalog/product-import.ts:584-607 | However a row prices its units, some unit is sold and exactly one sold unit is the default |
| ImportCategories.MadeExactly | src/modules/catalog/product-import.ts:533-555 | A category is made if and only if some product's first row names it and the shop has none of the name, and brought back if and only if one names it and the shop has it deleted and none live |
| ImportCategories.UsedExactly | src/modules/catalog/product-import.ts:533-682 | The plan adds a product in a category if and only if some product whose first row means it has no row in error, first or later |
| ImportCategories.NoneUnusedExactly | src/modules/catalog/product-import.ts:533-695 | Every category made or brought back is that of something added if and only if each is meant by a product with no row in error |
| ImportCategories.SavedMakesNoneUnused | src/modules/catalog/product-import.service.ts:43-53 | A save, which is refused while any row is in error, makes and brings back no category with nothing in it |
| ImportCategories.AFailedRowStillMakesItsCategory | src/modules/catalog/product-import.ts:533-590 | A preview of one first row in error lists its new category and adds nothing |
| ImportCategories.AFailedOptionStillMakesItsCategory | src/modules/catalog/product-import.ts:533-682 | So does one of a sound first row whose later option is in error |
| ImportTheorems.PlanImport | src/modules/catalog/product-import.ts:213-695 | The loop over rows and the last pass compute the specified plan |
| ImportText.UniqueSku | src/modules/catalog/product-import.ts:881-888 | The search ends because the codes in use are finitely many, at the first numbered code nobody uses |
| SellingUnits.ChosenIsSold | src/modules/catalog/selling-units.ts:59-88 | A unit is chosen exactly when something is sold and what was asked for, if a unit, is; what is chosen is sold |
| SellingUnits.FreshChoiceIsExtreme | src/modules/catalog/selling-units.ts:81-88 | Unasked and with no sold default, the largest sold unit for a wholesaler and the smallest for anyone else |

## Left out

- Ids are integers with a total order, and the ids of new rows come in with the call; the source draws UUIDs. A call that brings an id already taken is refused or changes nothing.
- Tables are sequences and maps with their uniqueness; Prisma and Postgres, query filters by customer, product or method, and tenant scoping are not modelled. Reads made just before a transaction are part of the step.
- Roles and authority come in as flags (`mayForce`, `mayHandBack`) except in cash, where the role is part of the rule; notes, users, units shown on a line, dates other than those the rules read, the display of `costPrice`, and the wording of messages are left out.
- Cost ratios and valuation, which are floating point, are left out; the exact integers they are built from are modelled.
- Sales appear as stock going out and as rows with a total and an account; recording, correcting and returning a sale line by line is not part of this model.
- Delivery lines come in base units; finding a line's unit and multiplying by what it holds is left out.
- Lots received at the same moment: the source leaves the tie to the database when it looks for the latest lot; the model takes the first such row.
- Corrections share the fee over a delivery's lines in the order they were recorded, where the source orders them by `createdAt` and then id; only which of two lines with equal remainders gets a kobo can differ.
- Removing a counted line, reads of levels and expiring stock, and the statement of one vendor would only add easy members.
- Idempotency: requests with no key or no organization are not protected by the source and not modelled; the hash is taken to tell two different texts apart; one clock serves the database and the application; browsers of the feed are not part of it.
- Request bodies: JSON objects are taken to have each key once, and the place JavaScript gives keys that look like whole numbers is not modelled; neither changes which bodies are the same.
- Sync: a read is one step, while the source takes `syncedThrough` just before its query; a later query only sees more of what that time covers. The text form of a cursor, the newest-first walk for browsing, and a negative page size, whose meaning is Prisma's, are left out.
- Accounts: `number`, which breaks ties between sales of one moment, is taken to follow the order the sales were recorded in. A sale names a customer who exists.
- Naira: a power of ten so large that JavaScript cannot build the padded text, or so long that it is itself rounded, is not modelled; `Number` of the whole part is exact wherever the total passes the safe-integer check, so no float appears.
- Cash: the six queries behind the figures are two lists, what somebody took and what left their hands, and a row not in cash, or from before counting starts, is one of no amount; the date counting starts, which no call sets, settings and accounts banked into are left out, and a history does not change between the pages of one walk.
- Barcode: only the symbologies this code tells apart; a code given with its symbology named is left out.
- Import: letters outside ASCII are not folded to one case; a portion of a unit of more than 2^53 pieces is exact here and rounded in the source; ids, messages, and the totals of added, skipped and failed rows are left out.
