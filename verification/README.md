# Beidar Desktop: a verified model of the point of sale's money and stock ledger

The model covers the parts of Beidar Desktop where a mistake costs money, stock or access:

- **The ledger** (`Domain`, `Store`, `Money`, `Sums`, `Refunds`, `SplitLegs`, `CreditLegs`, `Points`, `Books`, `*Steps`, `*Laws`,
  `*Service`, `Ledger`, `Shop`). One database value holds products, customers, invoices, payment rows, stock movements,
  shifts, cash movements and purchase orders. `Store` updates it in place, one repository statement at a time; the services
  (`SaleService`, `PaymentService`, `FinanceService`, `CrmService`) run these updates inside transactions that roll back on
  error. Each service method is proved against a specification of the whole new database (`Sold`, `PartlyReturned`, `FullyReturned`,
  `Recorded`, `Collects`, `Opened`, `Closed`, `Received`). The laws are then proved about these specifications, operation by
  operation, and over every run of the state machine in `Ledger`; `Shop` proves that every call of the wired services is a
  step of that machine. `PriceLaws` and `ShiftLaws` say what an invoice charges and what a shift is told in terms of the
  stored columns and rows alone.
- **Gaps.** `Books` states each law as a gap between a redundant counter and the rows it summarises (stock and movements,
  purchases and invoices, debt and credit, installment debt and schedules, points, drawer and cash rows). An operation meets
  a law when the gap does not move. Where the code moves a gap, the exact condition is proved, for one step (`...Iff`) and
  for whole runs: the law holds at every moment exactly when every step met its condition. `Failures` and
  `IntakeFailures` give well-formed databases and requests that succeed and break the laws.
- **Installment plans and overdue alerts** (`InstallmentPlans`, `OverdueAlerts`).
- **The receipt raster** (`Raster`): error diffusion pushed through an array in place, proved equal to a pull definition in
  which every cell names the errors it receives.
- **Cloud backups** (`CloudBackup`): the commit-marker upload, stopped after any chunk.
- **LAN sessions** (`LanSessions`), **the product cache** beside the ledger (`ProductCache`), and **the weighted model rotation**
  (`ModelRotation`).

Amounts are integer cents, quantities exact thousandths, shares Go's truncating integer quotients; gray levels and the VAT rate are
reals. Identifiers, tokens and row keys that the code generates arrive as parameters and are required to be new.

## What the code does that its comments do not say

Each of these is part of the model, not corrected in it.

- `ReturnSalePartial` does not look at the invoice's status, so an invoice returned in full can be partly returned again. It
  pays out money that never came in, restores goods that were back already, and leaves an invoice that can be returned in
  full once more (`Failures.ReturnedComesBack`; exactly when: `FlowKeptIff`, `InvoiceKeptIff`, `PurchasesKeptIff`,
  `ReturnableAgainIff`).
- From the second partial return of a split invoice on, the shares divide the original legs by a reduced total and can exceed
  the refund (`Failures.SecondReturnOverpays`; exactly when: `SharesWithinRefundIff`).
- A partial return of a split invoice takes the credit share off the debt without paying out what the customer had already
  paid (`Failures.PaidCreditIsLost`), and from the second return on takes more than the credit leg loses, at the expense of
  other invoices (`Failures.SecondShareOvertakes`): the last piece alone takes the whole original leg, so pieces take it and
  all that the earlier ones took (`LastPieceAsksAll`, `Failures.PiecesAskTwice`; exactly when:
  `PartialReturnLaws.DebtKeptIff`, `SharesWithinLegIff`).
- A full return of a split invoice whose credit was already paid down pays the overpaid part in cash without telling the shift
  (`Failures.OverpaidSplitCredit`, `FullReturnLaws.DrawerKeptIff`).
- A refund larger than the shift's takings is clamped away in `cash_sales` (`Failures.RefundOutrunsTakings`,
  `PartialReturnLaws.DrawerKeptIff`).
- A partial return of an installment invoice can take more than that invoice owed out of the customer's installment debt
  (`Failures.RefundTakesFromAnother`; exactly when: `PartialReturnLaws.InstallmentsKeptIff`).
- `Div` rounds halves away from zero, so the points asked back over several returns can exceed the points awarded
  (`ThreeHalvesOverAsk`; exactly when: `NeverOverAskedIff`; bounded over runs: `PointsFollowInvoices`).
- After partial returns an installment invoice can stand for less than was collected on it; a full return then pays back all
  that was collected (`Failures.FullReturnPaysMore`; exactly when: `PaysNoMoreIff`).
- A partial return can be refused although goods and money remain, because the floors value the last piece at nothing
  (`LastQuarterCanBeRefused`; exactly when: `ReturnPartOkIff`).
- `ReceivePurchaseOrder` clears its flag when an entry leaves its line short and never sets it again, so a receipt that
  completes a line in pieces leaves the order partial although everything arrived, and it can still be cancelled
  (`IntakeFailures.CompleteButPartial`; exactly when: `StatusSaysIff`). A further receipt, even an empty one, puts it right
  (`EmptyReceiptSays`).
- `SaveCustomer` checks that a new customer has no debt; installment debt, purchases and points are stored as sent
  (`EnrolStarts`, `EnrolKeepsDbIff`). Runs are over counters that are not negative.
- The cart's `returned` quantities and the schedule's `paid` flags are stored as the client sends them. Which quantities keep
  the database well formed is exact in `SaleKeepsDbIff`, and runs are over such carts; what they do to the goods is exact in
  `FlowStarts`, and the flags' effect in `SaleLaws.InstallmentsKeptIff` (`IntakeFailures.ReturnedOnArrival`,
  `IntakeFailures.PaidOnArrival`).
- `PayInstallment` collects on any invoice that carries a plan, also one not sold by installments
  (`IntakeFailures.CollectsFromAnother`; exactly when it harms: `CollectInstallmentsKeptIff`), and accepts
  an amount a hundred times too large or too small while recording the scheduled one.
- A forced payment above the debt loses the excess to the clamp (`IntakeFailures.ForcedPaymentLoses`; exactly when:
  `RecordDebtKeptIff`).
- `CalculateInstallmentPlan` does not check for a negative down payment; the sale does (`PlanAcceptedIff`).
- When a cart or order repeats a product, a partial return reaches only the first such line and a receipt only the last.
- The overdue summary does not skip returned invoices.
- Blocking an address does not disconnect the devices registered from it; only a device of that id is removed.
- An empty encoded snapshot would index an empty upload order, so a backup is modelled for a non-empty one. Backup ids carry a
  timestamp in seconds, so two backups in one second would share an id; the model asks for a new one.
- The remainder leg of a split invoice depends on Go's map order when it has neither credit nor cash; the model allows every
  choice (`RemainingLegs`), and proves that the cash and credit legs do not depend on it (`CashLegIsFixed`). The card leg
  can: a full return asks for the legs once for the rows and once for the shift, so the shift may be told of a card refund
  that was paid by another method (`Failures.ToldOfAnotherLeg`; exactly when: `CardLegFixedIff`; by how much:
  `CardDriftIsSmall`).

## Model

| member | source | states |
|---|---|---|
| Money.RoundToNearestIsFloor | internal/core/domain/money.go:121-131 | RoundToNearest is the largest multiple of the unit not above the amount, for negative amounts too |
| Money.TruncatesTowardZero | internal/service/sale_service.go:889 | On all signs the quotient times the divisor never exceeds the dividend in size, and the remainder is smaller than the divisor and takes the dividend's sign |
| Money.DivThousand | internal/core/domain/money.go:75-111 | On non-negative amounts Div(1000) rounds halves up rather than truncating |
| Money.FloorShare | internal/service/sale_service.go:889 | A floor share is within the whole, equals it for the full part and is strictly smaller for a strict part |
| Store.Store.DecrementPurchases | internal/repository/customer_repo.go:162-167 | Clamped at zero; nothing changes for an unknown customer, and no other column does |
| Store.Store.AdjustPoints | internal/repository/customer_repo.go:169-181 | Adds, or subtracts with a clamp at zero |
| Store.Store.DecrementDebt | internal/repository/customer_repo.go:183-190 | Clamped at zero; the rest of the database stays |
| Store.Store.DecrementInstallmentDebt | internal/repository/customer_repo.go:192-198 | Clamped at zero; the rest of the database stays |
| Store.Store.IncrementPurchasesAndDebt | internal/repository/customer_repo.go:200-213 | Adds purchases, points and both debts in one statement |
| Store.Store.UpdateStock | internal/repository/product_repo.go:109-120 | Succeeds exactly when the product exists and stock stays non-negative; a refused update changes nothing |
| Store.Store.CreateStockMovement | internal/repository/product_repo.go:122-124 | Appends one movement and changes nothing else |
| Store.Store.CreatePayment | internal/repository/payment_repo.go:27-29 | Appends one row and changes nothing else |
| Store.Store.SaveSale | internal/repository/sale_repo.go:143-145 | Replaces one invoice and changes nothing else |
| Store.FindSale | internal/repository/sale_repo.go:117-137 | The invoice with this id, and none only if there is none |
| Store.ActiveShift | internal/repository/shift_repo.go:28-37 | The first open shift, if any |
| Store.Store.UpdateShiftSales | internal/repository/shift_repo.go:89-120 | Counts into the open shift only; refused exactly when a shift is required and none is open |
| Store.Store.UpdateShiftRefunds | internal/repository/shift_repo.go:122-145 | Takes out of the open shift with every counter clamped at zero |
| Refunds.FirstLine | internal/repository/sale_repo.go:160-166 | The first line with the product, and none only if no line has it |
| Refunds.ShareWithinRest | internal/service/sale_service.go:884-911 | The returned share never exceeds the remaining value, even when lines repeat a product |
| Refunds.VatWithinTotal | internal/service/sale_service.go:1043-1080 | The VAT refunded in proportion keeps VAT between zero and the new total |
| Refunds.LastShareIsAll | internal/service/sale_service.go:889-911 | When only this line is left, the share of its last quantity is all the value left, although the two are computed by different floors |
| Refunds.PartialReturnStep | internal/service/sale_service.go:813-1100 | Each refund lies in (0, Total] so neither clamp fires; the VAT left is its proportional part of the total left, above it by less than a cent; Total reaches zero exactly when the share is all the value left; the last quantity brings Total and VAT to exactly zero |
| Refunds.PartialReturnLeaves | internal/service/sale_service.go:1044-1080 | Besides lines, total and VAT a partial return changes the status, which says whether all came back, and takes the price of the returned goods, to the nearest cent and at most all there is, off the subtotal |
| Refunds.LineRestIs | internal/service/sale_service.go:893-911 | What is left of a line is valued at what is still out of its total, rounded down |
| Refunds.PartialReturnsSettle | internal/service/sale_service.go:884-928 | On any invoice not completely back, a successful sequence of partial returns conserves money, and one that brings everything back refunds exactly the total there was despite every floor |
| Refunds.ReturnPartOkIff | internal/service/sale_service.go:831-928 | A partial return succeeds exactly for a positive quantity still out of a line, when something of value is left and the floors leave the share at least a cent of the total |
| Refunds.NothingMoreToReturn | internal/service/sale_service.go:835-844 | Once everything came back by partial returns, another is refused |
| Refunds.LastQuarterCanBeRefused | internal/service/sale_service.go:912-928 | Counterexample: a last quarter unit is refused while goods and money remain |
| SplitLegs.SaleRemainingLegs | internal/service/sale_service.go:1107-1153 | Returns one of the legs maps its specification allows, for any input |
| SplitLegs.ScaleLegs | internal/service/sale_service.go:1118-1134 | The scaling loop gives the capped floor share of every positive leg in whatever order the map is visited |
| SplitLegs.SumOf | internal/service/sale_service.go:1113-1138 | Adding up a map of amounts gives its sum in whatever order it is visited |
| SplitLegs.CapsAreIdle | internal/service/sale_service.go:1121-1133 | For a total within the legs neither cap fires |
| SplitLegs.RemainingLegsSumToTotal | internal/service/sale_service.go:1102-1153 | The legs sum exactly to the total; every leg but one is its floor share and within its original; the remainder is smaller than the number of legs and goes to credit when there is one |
| SplitLegs.CreditLegIs | internal/service/sale_service.go:1139-1141 | Every result of saleRemainingLegs has the same credit leg, and it is not negative |
| SplitLegs.CreditLegAtSale | internal/service/sale_service.go:1121-1141 | Before any return the credit leg is the one sold |
| SplitLegs.CreditLegAtEnd | internal/service/sale_service.go:1121-1141 | With the last quantity nothing is left of it |
| CreditLegs.CreditLegIsRest | internal/service/sale_service.go:1121-1141 | The credit leg is the total less the floor shares of the other legs |
| CreditLegs.CreditLegBounds | internal/service/sale_service.go:1121-1141 | It is at least its exact share and above it by less than one cent per other leg |
| CreditLegs.FirstShareExcess | internal/service/sale_service.go:976-987 | Before any other return the share taken off the debt is at least what the credit leg loses and above it by less than the number of other legs: exact for one |
| CreditLegs.ShareOfRest | internal/service/sale_service.go:976-987 | The share of the last piece is the whole credit leg the invoice was sold with, whatever came off since |
| CreditLegs.SharesWithinLegIff | internal/service/sale_service.go:976-987 | With at most one other leg, no refund takes more off the debt than the credit leg loses exactly while that leg is what it was sold as |
| CreditLegs.OneCentLegs | internal/service/sale_service.go:976-987 | The leg can still be what it was sold as after a return: with legs of one cent each and one cent back, every refund stays within it |
| CreditLegs.LastPieceAsksAll | internal/service/sale_service.go:976-987 | Returned in pieces, a split invoice asks off the debt its whole credit leg and, on top, all that the earlier pieces asked |
| SplitLegs.SharesSum | internal/service/sale_service.go:976-1010 | Floor shares together lose less than one cent per positive leg |
| SplitLegs.FirstReturnShares | internal/service/sale_service.go:976-1010 | On the first partial return the shares sum to at most the refund and miss less than one cent per leg |
| SplitLegs.SharesWithinRefundIff | internal/service/sale_service.go:980-1010 | The shares of every refund stay within it exactly when the legs do not exceed the current total |
| Failures.SecondReturnOverpays | internal/service/sale_service.go:994-1002 | An invoice of four units at 25, paid in cash as the only leg of a split: its second unit to come back, worth 25, is paid out as 33 |
| Points.CarryIs | internal/service/sale_service.go:597-608 | Exactly when one cut of a total gains or loses a point |
| Points.AskedBackWithinReturns | internal/service/sale_service.go:935-944 | Over any returns of a total, points asked back and awarded differ by less than the number of returns |
| Points.MixedReturnAsksBack | internal/service/sale_service.go:597-944 | Partial returns followed by a full return ask back the points awarded, give or take one per partial return |
| Points.NeverOverAskedIff | internal/service/sale_service.go:324-326 | Over all well-formed invoices of a total and all ways of returning them, no more is asked back than was awarded exactly when the total is below 1000 cents |
| Points.OverAsked | internal/service/sale_service.go:935-944 | For every total from 1000 cents on, an invoice and partial returns of it that ask back one point too many |
| Points.ThreeHalvesOverAsk | internal/service/sale_service.go:937-944 | An invoice of three units at 500 earns 2 points; returned one by one, its refunds ask back 3 |
| Points.WholeLineBack | internal/service/sale_service.go:884-919 | Without VAT or discount, returning a whole line refunds exactly its price |
| Books.LegRowsSum | internal/service/sale_service.go:724-746 | Whatever the map order, one row per leg sums to the legs, and the cash among them is the cash leg |
| Books.LegRowsOf | internal/service/sale_service.go:445-460 | The one row of a leg is all there is of its method |
| SellingSteps.InvoiceOkIff | internal/service/sale_service.go:258-326 | The stored invoice is well formed exactly when the returned quantities the cart was sent with lie within its lines and only on the first line of a product |
| SellingSteps.SaleKeepsDbIff | internal/service/sale_service.go:147-530 | A sale keeps the database well formed exactly when those returned quantities are |
| SellingSteps.InvoiceTotals | internal/service/sale_service.go:307-326 | Total is the taxable total plus VAT, with VAT between zero and the total |
| PriceLaws.InvoicedIff | internal/service/sale_service.go:225-326 | The invoice computed from any cart is the one invoice in which each line costs its price times its quantity to the nearest cent, halves away from zero, less its discount; the subtotal sums the lines before discounts, total less VAT plus discount sums them after; VAT is the rate on that to the nearest cent, nothing without a rate; a customer earns the total over 1000 in points, rounded; only credit and installments are pending; all else is as sent |
| PriceLaws.SellsIff | internal/service/sale_service.go:147-530 | Says in the invoice's own columns exactly which carts are sold: discounts only with the permission, every line positive, in the catalogue and within a cent of the price or of a positive wholesale price, all lines together in stock, legs and plan adding up, a new id, a customer where one is needed, a shift where one is required |
| PriceLaws.SoldInvoice | internal/service/sale_service.go:225-368 | That invoice is the new row of the sales table, and the earlier rows stay |
| PartialReturnSteps.PartialReturnKeepsDb | internal/service/sale_service.go:813-1100 | A partial return keeps the database well formed, even on an invoice already returned |
| FullReturnSteps.ReturnKeepsDb | internal/service/sale_service.go:532-811 | A full return keeps the database well formed |
| SaleService.SaleService.ProcessSale | internal/service/sale_service.go:147-530 | Succeeds exactly under the stated checks; then the new invoice is the one its cart is priced as and the whole new database is the specified one, else nothing changes |
| SaleService.SaleService.TakeStock | internal/service/sale_service.go:258-305 | Succeeds exactly when every product is known, priced right and its stock covers all lines of the cart together; then stock drops by the sum ordered and the movements say so |
| SaleService.SaleService.AnyDiscount | internal/service/sale_service.go:162-174 | Finds a discounted line exactly when there is one |
| SaleService.SaleService.CheckLines | internal/service/sale_service.go:212-223 | Accepts exactly carts of positive quantities with discounts between zero and the line's price |
| SaleService.SaleService.CheckPlan | internal/service/sale_service.go:328-366 | Accepts exactly the plans with a down payment in range and non-negative entries that sum to the rest |
| SaleService.SaleService.CheckSplit | internal/service/sale_service.go:410-443 | Accepts exactly non-negative legs that sum to the total |
| SaleService.SaleService.ChargeCustomer | internal/service/sale_service.go:372-408 | Charges credit, the financed part or the credit leg to the right debt and nothing else |
| SaleService.SaleService.WriteSaleRows | internal/service/sale_service.go:445-498 | The rows of the sale for every payment method |
| SaleService.SaleService.WriteLegRows | internal/service/sale_service.go:445-460 | Exactly one row per positive leg, in whatever order the map is visited |
| SaleService.SaleService.ReturnSale | internal/service/sale_service.go:532-811 | Succeeds exactly for an invoice not yet returned; then the whole new database is the specified one, else nothing changes |
| SaleService.SaleService.RestockLoop | internal/service/sale_service.go:562-594 | Restores exactly what each line still has out and skips deleted products |
| SaleService.SaleService.SettleCustomer | internal/service/sale_service.go:597-709 | Purchases, points and debts after the return, and the cash owed on overpaid credit |
| SaleService.SaleService.CollectedLoop | internal/service/sale_service.go:644-654 | What an installment invoice has collected: down payment plus entries paid |
| SaleService.SaleService.WriteReturnRows | internal/service/sale_service.go:629-746 | The negative rows of the return for every payment method |
| SaleService.SaleService.RefundValue | internal/service/sale_service.go:748-785 | What the shift is told, for every payment method: the value and the cash of the return, whose law over the new rows is ReturnTold |
| SaleService.SaleService.ReturnSalePartial | internal/service/sale_service.go:813-1100 | Succeeds exactly when the refund arithmetic does; then the whole new database is the specified one, with VAT left in proportion, else nothing changes |
| SaleService.SaleService.BringBack | internal/service/sale_service.go:851-878 | Stock and movement of the returned goods, neither for a deleted product |
| SaleService.SaleService.RestLoop | internal/service/sale_service.go:893-911 | Values what the invoice had left before this return |
| SaleService.SaleService.RefundCustomer | internal/service/sale_service.go:935-989 | Purchases, points and debts after the refund, and the cash owed on overpaid credit |
| SaleService.SaleService.ShareLoop | internal/service/sale_service.go:991-1002 | Each leg's floor share, credit left out |
| SaleService.SaleService.WritePartialRows | internal/service/sale_service.go:991-1024 | The negative rows of a partial return for every payment method |
| SaleLaws.RowsSumToTotal | internal/service/sale_service.go:410-507 | After a sale its rows sum exactly to its total for every payment method, and the cash among them is what the shift is told |
| SaleLaws.RowsByMethod | internal/service/sale_service.go:445-498 | Method by method: the legs of a split, the financed part and the cash down payment of installments, the whole total of any other |
| ShiftLaws.SaleTold | internal/service/sale_service.go:500-512 | The open shift counts one sale more, for the sum of its rows; its cash sales and expected balance rise by the cash among them; nothing else of the shifts moves |
| SaleSteps.DrawerAfterSales | internal/repository/shift_repo.go:89-120 | Cash counted into the open shift together with its rows keeps drawer and rows in agreement |
| SaleSteps.DrawerAfterRefund | internal/repository/shift_repo.go:122-145 | A cash refund widens the gap between drawer and rows by exactly what the takings do not cover |
| SaleLaws.StockKept | internal/service/sale_service.go:286-304 | Stock moves with the movements, also when a cart repeats a product |
| SaleLaws.FlowStarts | internal/service/sale_service.go:258-305 | A new invoice has out what it sold less what the cart already marked as returned; other invoices' goods do not move |
| SaleLaws.PurchasesKept | internal/service/sale_service.go:398-407 | Purchases rise by the new invoice's total |
| SaleLaws.InstallmentsKeptIff | internal/service/sale_service.go:388-393 | Installment debt agrees with the schedules exactly when the new one arrives with nothing marked paid |
| SaleLaws.DebtKept | internal/service/sale_service.go:386-396 | Debt rises by exactly what the new invoice has on credit, be it the total or a leg of a split |
| SaleLaws.PointsKept | internal/service/sale_service.go:324-326 | Points rise by exactly what the new invoice stands for |
| SaleLaws.InvoiceStarts | internal/service/sale_service.go:410-498 | A new invoice's rows agree with its total; other invoices' rows do not move |
| SaleLaws.DrawerKept | internal/service/sale_service.go:500-512 | The open shift's cash sales rise by exactly the cash rows of the sale |
| PartialReturnLaws.StockKept | internal/service/sale_service.go:851-878 | Stock moves with the movements |
| PartialReturnLaws.FlowKeptIff | internal/service/sale_service.go:835-878 | By exactly how much goods moved and goods out fall out of step; for products in the catalogue not at all exactly when the invoice was live, or the product another one of which none is out |
| PartialReturnLaws.OverRestoresIff | internal/service/sale_service.go:813-878 | With goods in step before, no more comes back than was sold exactly when the invoice was live |
| PartialReturnLaws.ReturnableAgainIff | internal/service/sale_service.go:1044-1056 | After a partial return the invoice can be returned in full exactly when that was not its last piece, even if it had been returned in full before |
| PartialReturnLaws.InvoiceKeptIff | internal/service/sale_service.go:1011-1023 | An invoice settled by single rows keeps them equal to its remaining total exactly when it was live; otherwise they fall short |
| PartialReturnLaws.SecondRefundOverdraws | internal/service/sale_service.go:813-845 | The rows of a cash or card invoice go below zero exactly when it had already been returned |
| PartialReturnLaws.PurchasesKeptIff | internal/service/sale_service.go:937-944 | Purchases stay equal to the live totals exactly when the invoice was live, or there was nothing to take and it refunds all it has left |
| PartialReturnLaws.InstallmentsTaken | internal/service/sale_service.go:972-975 | Installment debt stays in agreement with what invoices owe exactly when the refund takes from it what this invoice owed, up to the refund |
| PartialReturnLaws.InstallmentsKeptIff | internal/service/sale_service.go:972-975 | While the debt covers what the invoices owe, that is exactly when the refund, up to the debt, is no more than this invoice owed |
| PartialReturnLaws.OwesWithinDebt | internal/repository/customer_repo.go:192-198 | While the debt covers what the invoices owe together, it covers each one, so the clamp takes nothing |
| PartialReturnLaws.SplitUnharmedMeans | internal/service/sale_service.go:976-989 | When a refund of a split invoice leaves the debt right, in terms of the invoice, the refund and the debt: a first return with one other leg when the debt covers the share, a last piece when the debt can give the leg it was sold with and that is what is left of it, an invoice already returned only with nothing left on either side |
| PartialReturnLaws.DebtKeptIff | internal/service/sale_service.go:946-989 | Debt drop plus cash equals the value returned of a credit invoice; debt agrees with live credit exactly when a credit invoice was live and the refund of a split one meets those conditions |
| PartialReturnLaws.DebtMoves | internal/service/sale_service.go:946-989 | By exactly how much a partial return moves debt against live credit, for every method |
| PartialReturnLaws.SplitDebtFalls | internal/service/sale_service.go:976-987 | A refund of a split invoice takes the credit leg's floor share of it, out of the current total, off the debt, or all the debt there is when that is less |
| PartialReturnLaws.PartPaidOut | internal/service/sale_service.go:991-1024 | A partial return pays out its refund for single-row invoices, no more for a credit one, and with the credit share the shares of the original legs for a split one |
| PartialReturnLaws.PointsMove | internal/service/sale_service.go:937-944 | By exactly how much points fall out of step with what live invoices stand for |
| PartialReturnLaws.PartialCashRows | internal/service/sale_service.go:991-1041 | The cash rows written are exactly the cash the shift is told about |
| PartialReturnLaws.PartialRowsByMethod | internal/service/sale_service.go:991-1024 | Method by method: each leg but credit its floor share of the refund out of the current total, a credit invoice the overpaid part in cash, any other the whole refund |
| ShiftLaws.PartTold | internal/service/sale_service.go:1026-1041 | The open shift's total falls by what the invoice's total falls by and its cash by the cash rows, each down to zero at least; the sale still counts |
| PartialReturnLaws.SettlingRows | internal/service/sale_service.go:958-970 | Only cash handed back on overpaid credit counts against what the customer settled |
| PartialReturnLaws.DrawerKeptIff | internal/service/sale_service.go:1026-1041 | The gap between cash sales and cash rows widens by exactly the cash the shift's takings do not cover |
| FullReturnLaws.StockKept | internal/service/sale_service.go:562-594 | Stock moves with the movements |
| FullReturnLaws.FlowKept | internal/service/sale_service.go:562-594 | Brings back exactly what the invoice still had out |
| FullReturnLaws.PurchasesKept | internal/service/sale_service.go:603-605 | Purchases drop by the remaining total, so the clamp takes nothing |
| FullReturnLaws.InstallmentsKept | internal/service/sale_service.go:644-679 | Agreement is kept exactly when the debt covers what the invoice owes, so always while it covers what all of them owe |
| FullReturnLaws.DebtKept | internal/service/sale_service.go:615-708 | Debt drop plus cash equals exactly the credit the invoice still had, be it the total or a leg of a split; agreement is always kept |
| FullReturnLaws.PointsMove | internal/service/sale_service.go:597-608 | Points fall by what the invoice stands for, but for what the clamp keeps |
| FullReturnLaws.InvoiceKept | internal/service/sale_service.go:711-723 | The rows of a cash or card invoice fall by its remaining total, so rows that agreed end at zero |
| FullReturnLaws.CashLegIsFixed | internal/service/sale_service.go:612-773 | The three calls of saleRemainingLegs agree on the cash and credit legs whatever the map order |
| FullReturnLaws.SplitRowsSum | internal/service/sale_service.go:724-746 | The rows of a returned split invoice sum to its remaining total less the credit leg |
| FullReturnLaws.ReturnCashRows | internal/service/sale_service.go:748-785 | The cash rows are what the shift is told plus, for a split invoice only, the overpaid credit it is not told |
| ShiftLaws.ReturnRowsTold | internal/service/sale_service.go:748-785 | What the shift is told is the sum of the new cash and card rows, without the cash for a split invoice's overpaid credit, but for the difference between two calls of saleRemainingLegs on the card leg |
| ShiftLaws.ReturnTold | internal/service/sale_service.go:748-790 | The open shift's total falls by that value, its cash by the cash among it and its count by one, each down to zero at least, exactly when the value is positive; else the shifts stay |
| ShiftLaws.CardLegFixedIff | internal/service/sale_service.go:1107-1153 | All calls of saleRemainingLegs agree on the card leg exactly when it cannot take the remainder, must take it, or nothing remains |
| ShiftLaws.CardDriftIsSmall | internal/service/sale_service.go:1107-1153 | Otherwise two calls differ on it by less than a cent per leg |
| FullReturnLaws.PaidOutRows | internal/service/sale_service.go:615-746 | What a full return pays out, for every method |
| FullReturnLaws.PaysNoMoreIff | internal/service/sale_service.go:644-669 | A full return pays out no more than the invoice still stands for, except exactly an installment invoice of which less is left than was collected |
| FullReturnLaws.DrawerKeptIff | internal/service/sale_service.go:748-790 | The gap between cash sales and cash rows widens by exactly the cash the takings do not cover and the overpaid credit of a split invoice |
| PaymentService.PaymentService.CreatePayment | internal/service/payment_service.go:54-156 | Succeeds exactly under the stated checks; then the whole new database is the specified one, else nothing changes |
| PaymentService.PaymentService.PayInstallment | internal/service/payment_service.go:211-350 | Succeeds exactly under the stated checks; then the whole new database is the specified one, else nothing changes |
| PaymentService.PaymentService.GetInstallmentSummary | internal/service/payment_service.go:365-391 | The remaining amount is the unpaid entries' sum and, while nothing of the invoice was returned, what it has outstanding |
| PaymentService.PaymentService.Summarise | internal/service/payment_service.go:381-388 | Adds up the unpaid entries; all entries are paid exactly when the counts agree |
| PaymentService.PaymentService.AllPaidLoop | internal/service/payment_service.go:302-308 | Tells whether every entry is paid |
| PaymentSteps.RecordKeepsDb | internal/service/payment_service.go:54-156 | Recording a payment keeps the database well formed |
| PaymentSteps.RecordDebtKeptIff | internal/service/payment_service.go:91-143 | Debt agrees with charges less settlements exactly when the payment does not exceed the debt, which an unforced one never does |
| PaymentSteps.RecordDrawerKept | internal/service/payment_service.go:145-149 | A cash payment raises cash sales by exactly its row |
| ShiftLaws.RecordTold | internal/service/payment_service.go:145-149 | Neither total nor count of the open shift moves; its cash sales and expected balance rise by the payment if in cash |
| PaymentSteps.CollectKeepsDb | internal/service/payment_service.go:285-339 | Collecting keeps the database well formed: in particular an invoice reads paid only when every entry is |
| PaymentSteps.CollectPaysEntry | internal/service/payment_service.go:299-323 | Collecting marks its entry paid and changes no other; the invoice then reads paid exactly when every entry is, and else what it read before; no other invoice changes |
| PaymentSteps.CollectTakesDue | internal/service/payment_service.go:285-333 | What is recorded, and what the invoice has less outstanding, is the amount scheduled; the amount offered was that, or a hundred times as much or as little |
| PaymentSteps.CollectInstallmentsKeptIff | internal/service/payment_service.go:285-339 | Collecting keeps installment debt in agreement exactly when the invoice was sold by installments, or there is no such debt |
| PaymentSteps.CollectDrawerKept | internal/service/payment_service.go:341-345 | A cash installment raises cash sales by exactly its row |
| ShiftLaws.CollectTold | internal/service/payment_service.go:341-345 | So for an installment |
| Books.OutstandingIsUnpaid | internal/service/payment_service.go:381-388 | Total less down payment less installments paid is the sum of the unpaid entries |
| PaymentSteps.DueWithinOutstanding | internal/service/payment_service.go:285-297 | An unpaid entry is never more than the invoice has outstanding |
| CustomerSteps.EnrolKeepsDbIff | internal/service/crm_service.go:80-97 | Putting a customer on file keeps the database well formed exactly when no counter is sent as negative |
| CustomerSteps.EnrolStarts | internal/service/crm_service.go:80-97 | Debt starts in agreement; purchases, installment debt and points start off by exactly what was sent |
| CustomerSteps.EnrolKeepsOthers | internal/service/crm_service.go:80-97 | Nobody else's law moves |
| CrmService.CrmService.SaveCustomer | internal/service/crm_service.go:51-121 | Creates a customer exactly under the stated checks; saving one on file changes no counter |
| InstallmentPlans.CalculateInstallmentPlan | internal/service/payment_service.go:393-463 | Refused exactly when a month would fall below one cent; else positive amounts covering the financed part exactly: even parts rounded down to 25000 cents if each has that much and otherwise to a cent, and a last one that is no smaller and exceeds them by less than that much per month |
| InstallmentPlans.FillSchedule | internal/service/payment_service.go:434-454 | The entries add up to the financed part exactly |
| InstallmentPlans.BaseBounds | internal/service/payment_service.go:415-443 | The rounded base is positive exactly when there is a cent per month, is an even part so rounded, and bounds the last installment |
| InstallmentPlans.PlanAcceptedIff | internal/service/sale_service.go:328-366 | Every calculated plan is accepted by the sale exactly when its down payment is not negative |
| OverdueAlerts.GetInstallmentAlertSummary | internal/service/payment_service.go:465-602 | Count, buckets, amount, alerts and per-customer debts are views of the same overdue entries, for any invoices and any day |
| OverdueAlerts.AlertIff | internal/service/payment_service.go:507-571 | The alerts are exactly the unpaid entries of all invoices whose due date lies before today, each with its amount, its days overdue and all that is unpaid on the invoice |
| OverdueAlerts.AddSale | internal/service/payment_service.go:507-571 | One invoice's entries extend every view alike |
| OverdueAlerts.UnpaidTotal | internal/service/payment_service.go:512-517 | Everything still unpaid on the invoice |
| OverdueAlerts.RaiseAgrees | internal/service/payment_service.go:529-569 | One more alert keeps all views in agreement |
| FinanceService.FinanceService.OpenShift | internal/service/finance_service.go:201-232 | Succeeds exactly when no shift is open |
| FinanceService.FinanceService.CloseShift | internal/service/finance_service.go:234-279 | Closes an open shift for its owner or a permitted closer, with the specified balance and variance |
| FinanceService.FinanceService.GetCashInAndOut | internal/repository/shift_repo.go:72-87 | The shift's deposits and withdrawals, summed apart |
| FinanceService.FinanceService.AddCashMovement | internal/service/finance_service.go:299-340 | Appends exactly one movement, to an open shift, for a positive amount of a known type |
| FinanceService.FinanceService.CreatePurchaseOrder | internal/service/finance_service.go:350-385 | A pending order with nothing received or paid and the lines' sum as total |
| FinanceService.FinanceService.CheckOrderLines | internal/service/finance_service.go:363-376 | Accepts exactly positive quantities and costs, and adds up the total |
| FinanceService.FinanceService.ReceivePurchaseOrder | internal/service/finance_service.go:473-601 | Succeeds exactly for a live order whose delivered products still exist; then lines, status, stock and movements are the specified ones, else nothing changes |
| FinanceService.FinanceService.ReceiveLoop | internal/service/finance_service.go:485-570 | Each line receives what was delivered of its product up to what it lacks, stock and movements rise by exactly that, and the flag is cleared exactly when some entry left its line short |
| FinanceService.FinanceService.ScanLines | internal/service/finance_service.go:572-580 | Whether any of the order has arrived, and whether all of it has with the flag still set: the scan can only clear it |
| FinanceSteps.ReceivingLine | internal/service/finance_service.go:497-500 | The last line with the product, when an order repeats it |
| FinanceSteps.GoneLineUntouched | internal/service/finance_service.go:546-548 | A line whose product was deleted cannot have received anything in a delivery that succeeds |
| FinanceService.FinanceService.PayPurchaseOrder | internal/service/finance_service.go:603-640 | Pays a live order up to its balance |
| FinanceService.FinanceService.CancelPurchaseOrder | internal/service/finance_service.go:447-471 | Cancels exactly the orders that may be cancelled |
| FinanceSteps.OpenStartsDrawer | internal/service/finance_service.go:201-232 | A new shift starts with the opening balance expected, every counter at zero and its cash sales in agreement with no rows; the earlier shifts stay |
| FinanceSteps.OpenKeepsDb | internal/service/finance_service.go:201-232 | Opening keeps the database well formed: at most one shift is open |
| FinanceSteps.ClosesIff | internal/service/finance_service.go:240-250 | A shift closes exactly while it is open, for its owner, an administrator or a call without a login |
| FinanceSteps.CloseKeepsDb | internal/service/finance_service.go:234-279 | Closing keeps the database well formed |
| FinanceSteps.CloseExpectsCashRows | internal/service/finance_service.go:252-263 | Closing expects opening balance plus signed cash rows plus deposits less withdrawals, off by exactly the drawer gap; the counted balance and its variance are stored, and nothing else of the shifts changes |
| FinanceSteps.LinesStayWithin | internal/service/finance_service.go:516-570 | Every line stays between nothing and what was ordered even when a receipt repeats a product, and nothing is un-received |
| FinanceSteps.OneEntryBrings | internal/service/finance_service.go:516-570 | One entry brings the last line of its product what it says or what that line lacks, whichever is less; no other line moves |
| FinanceSteps.DeliveriesAdd | internal/service/finance_service.go:516-570 | What comes in two deliveries leaves the lines as it would in one |
| FinanceSteps.OrderStaysOk | internal/service/finance_service.go:572-593 | After a receipt a received order has everything, a partial one something and a pending one nothing |
| FinanceSteps.LeftShortIff | internal/service/finance_service.go:516-570 | No entry left its line short exactly when the first positive entry for each unfinished line covers all it lacked |
| FinanceSteps.CompletesIff | internal/service/finance_service.go:516-570 | A receipt completes the order exactly when every line is complete already or is delivered what it lacks |
| FinanceSteps.StatusSaysIff | internal/service/finance_service.go:567-593 | After a receipt the status says exactly whether none, some or all has arrived, unless the receipt completes the order while a first entry does not cover its line: then the order stays partial with everything there |
| FinanceSteps.EmptyReceiptSays | internal/service/finance_service.go:485-593 | A further receipt that brings nothing makes the status say what has arrived |
| FinanceSteps.ReceiveKeepsDb | internal/service/finance_service.go:473-601 | A receipt keeps the database well formed |
| FinanceSteps.OrderAddedKeepsDb | internal/service/finance_service.go:350-385 | A new order keeps the database well formed |
| FinanceSteps.NewOrderIff | internal/service/finance_service.go:350-385 | A new order is the one order with the lines asked for, nothing received, each at its unit cost times its quantity to the nearest cent, owing their sum |
| FinanceSteps.ReceiveStockKept | internal/service/finance_service.go:516-570 | Stock moves with the restock movements |
| Ledger.StepKeepsDb | internal/service/sale_service.go:232-525 | Every operation, successful or refused, keeps the database well formed, given new ids and returned quantities an invoice may have |
| Ledger.RunKeepsDb | internal/service/sale_service.go:232-525 | So does every run |
| StockLaws.StockFollowsMovements | internal/repository/product_repo.go:109-124 | In any run each product's stock moves by exactly its movements and is never negative |
| StockLaws.StepFlowIff | internal/service/sale_service.go:258-878 | Exactly which steps keep the goods of a product on an invoice in step |
| StockLaws.NothingComesBackTwice | internal/service/sale_service.go:562-878 | Over any run, for a product in the catalogue, what came back on an invoice plus what is out equals what went out, at every moment, exactly when every step was safe |
| StockLaws.NothingOverRestoredWhileLive | internal/service/sale_service.go:562-878 | While only live invoices are partly returned nothing comes back twice, not even products deleted since |
| CustomerLaws.StepPurchasesIff | internal/repository/customer_repo.go:162-213 | Exactly which steps keep a customer's purchases equal to their live totals |
| CustomerLaws.PurchasesFollowInvoices | internal/repository/customer_repo.go:162-213 | Over any run, from when the customer is on file, purchases move with the live totals, at every moment, exactly when every step was safe |
| CustomerLaws.StepInstallmentsIff | internal/service/payment_service.go:285-339 | Exactly which steps keep installment debt equal to what live invoices owe |
| CustomerLaws.InstallmentDebtFollowsSchedules | internal/service/payment_service.go:285-390 | Over any run, from when the customer is on file, installment debt moves with what live invoices owe, at every moment, exactly when every step was safe |
| CustomerLaws.StepDebtIff | internal/repository/customer_repo.go:183-213 | Exactly which steps keep debt equal to live credit less settlements |
| CustomerLaws.DebtFollowsCredit | internal/repository/customer_repo.go:183-213 | Over any run, from when the customer is on file, debt is never negative and moves with live credit, split legs included, less settlements, at every moment, exactly when every step was safe |
| CustomerLaws.StepPoints | internal/repository/customer_repo.go:169-181 | No step but a partial return puts points out of step with what live invoices stand for, and that by at most its risk |
| CustomerLaws.PointsFollowInvoices | internal/repository/customer_repo.go:169-181 | Over any run, from when the customer is on file, points stay within the summed risk of what live invoices stand for: one per partial return of a live invoice |
| CashLaws.StepRowsIff | internal/service/sale_service.go:410-1023 | Exactly which steps keep the rows of a cash or card invoice equal to its remaining total |
| CashLaws.RowsFollowInvoices | internal/service/sale_service.go:410-1023 | Over any run the rows of a cash or card invoice never exceed its remaining total and equal it, or zero once it is returned, exactly when it was never partly returned after having been returned |
| CashLaws.StepDrawer | internal/repository/shift_repo.go:89-145 | A step within a shift widens the gap between cash sales and cash rows by exactly the cash unseen |
| CashLaws.CashSalesFollowRows | internal/repository/shift_repo.go:89-145 | Within a shift that gap widens by the sum of the cash unseen, so it stays closed exactly when every return was covered |
| CashLaws.DrawerAgreesIff | internal/repository/shift_repo.go:89-145 | Over any number of shifts cash sales agree with cash rows at every moment exactly when every return was covered |
| CashLaws.CloseBalances | internal/service/finance_service.go:234-279 | A shift opened and closed in a run: closing expects opening balance plus cash rows plus deposits less withdrawals plus exactly the cash unseen in between |
| OrderLaws.OrdersOnlyProgress | internal/service/finance_service.go:447-640 | In any run received quantities and paid amounts only grow within what was ordered and owed, a received order takes nothing more, and a cancelled one is neither paid nor received again |
| OrderLaws.StatusesStayHonest | internal/service/finance_service.go:447-601 | Over any run, a live order's status goes on to say how much has arrived, at every moment, exactly when every receipt was of that kind |
| OrderLaws.NewOrderHonest | internal/service/finance_service.go:358-376 | A new order is pending and nothing of it has arrived |
| LedgerLaws.NewShopQualifies | internal/service/sale_service.go:147-1100 | A shop with a catalogue and customers but no business meets what every run law asks of its start |
| LedgerLaws.ArrivesInAgreement | internal/service/crm_service.go:80-97 | So does a customer enrolled later with zero counters |
| LedgerLaws.NewShopAgreesIff | internal/service/sale_service.go:147-1100 | From such a start, purchases and debts of every customer, on file or enrolled since, are what the rows say, at every moment of every run, exactly when every step respects its conditions |
| LedgerLaws.NewShopDrawerIff | internal/repository/shift_repo.go:89-145 | And cash sales of every open shift are the signed cash rows since it was opened, at every moment, exactly when every return was covered |
| LedgerLaws.NewShopStockAndPoints | internal/service/sale_service.go:147-1100 | And unconditionally every stock is what was there plus its movements, and points are within the summed risk |
| Failures.ReturnedComesBack | internal/service/sale_service.go:813-845 | A well-formed database with an invoice returned in full that is partly returned again: rows go negative, more goods come back than went out, purchases fall out of step, and it can be returned in full once more |
| Failures.RefundOutrunsTakings | internal/repository/shift_repo.go:122-145 | A well-formed database in which a partial return pays 50 cents in cash that the shift's cash sales do not show |
| Failures.OverpaidSplitCredit | internal/service/sale_service.go:694-785 | A well-formed database in which a full return of a split invoice pays 50 cents of overpaid credit that the shift is not told |
| Failures.ToldOfAnotherLeg | internal/service/sale_service.go:748-785 | A well-formed database in which a full return pays the last cent back by voucher while the shift's total falls by a card refund |
| Failures.PaidCreditIsLost | internal/service/sale_service.go:976-989 | A well-formed database in which a partial return of a split invoice gives back neither debt nor cash for credit already paid |
| Failures.RefundTakesFromAnother | internal/service/sale_service.go:972-975 | A well-formed database in which a refund takes 150 off installment debt where the invoice owed 100, leaving less than another invoice owes |
| Failures.SecondShareOvertakes | internal/service/sale_service.go:976-987 | A well-formed database with four units split between cash and credit still owed: the second unit takes 16 off the debt where the leg loses 13, and the debt no longer covers both invoices |
| Failures.PiecesAskTwice | internal/service/sale_service.go:976-987 | All four units, one by one, ask 103 off the debt for a credit leg of 50 |
| Failures.FullReturnPaysMore | internal/service/sale_service.go:644-669 | A well-formed database in which a full return of an installment invoice that stands for 150 pays 200 |
| IntakeFailures.CollectsFromAnother | internal/service/payment_service.go:335-339 | A well-formed database in which collecting on a credit invoice that carries a plan takes 100 off the installment debt of another |
| IntakeFailures.ForcedPaymentLoses | internal/service/payment_service.go:91-143 | A well-formed database in which a forced payment of 150 on a debt of 100 loses 50 to the clamp |
| IntakeFailures.PaidOnArrival | internal/service/sale_service.go:388-393 | A sale whose only installment arrives marked paid: the debt rises by 100 and the invoice owes nothing |
| IntakeFailures.ReturnedOnArrival | internal/service/sale_service.go:258-305 | A sale whose cart marks more returned than bought leaves a database that is not well formed |
| IntakeFailures.CompleteButPartial | internal/service/finance_service.go:567-593 | A well-formed database in which ten units received as four and six leave the order partial with everything there, still open to cancelling |
| Raster.Gray | pkg/print/direct.go:379-380 | Every pixel's gray level lies in 0..255 and is the mean of its components, rounded down and scaled: 771 times it falls short of their sum by less than 3 |
| Raster.QuantError | pkg/print/direct.go:390-400 | The quantisation error lies in [-127, 128) |
| Raster.Dots | pkg/print/direct.go:353-364 | The printed size is positive and within the limits |
| Raster.DotsAre | pkg/print/direct.go:353-364 | Up to 576 dots wide it is printed as it is, else 576 wide and in proportion, rounded down but at least one row |
| Raster.Sample | pkg/print/direct.go:366-382 | The gray array starts as the sampled image |
| Raster.SampledIs | pkg/print/direct.go:369-381 | A dot shows the pixel the same part of the way across and down, rounded down |
| Raster.Level | pkg/print/direct.go:387-413 | A level that starts in 0..255 stays in [-127, 383) whatever errors it receives |
| Raster.LevelAfter | pkg/print/direct.go:401-413 | Pushing an error to four neighbours and pulling it from four are the same |
| Raster.FinalOpens | pkg/print/direct.go:387-413 | The level a cell is quantised at is its gray plus 7, 1, 5 and 3 sixteenths of the errors of the cells to its left and above |
| Raster.ErrorPassedOn | pkg/print/direct.go:400-413 | A cell passes its error on 7:3:5:1 and in full, but for what would fall off the sides, and to no other cell |
| Raster.Spread | pkg/print/direct.go:400-413 | Adds to every cell exactly its share of the error, and nothing outside the image |
| Raster.DitherCell | pkg/print/direct.go:390-416 | One cell keeps both invariants: cells hold what they were sent, bits are set for the black cells so far |
| Raster.SetCell | pkg/print/direct.go:414-416 | Sets this cell's bit and no other |
| Raster.ImageToBitmapData | pkg/print/direct.go:338-427 | Refused exactly for an unprintable size; else a header that names the dimensions and one bit per dot, set exactly when the dot came out black, with zero padding |
| Raster.PrintedBit | pkg/print/direct.go:414-416 | The bit of a dot, the leftmost highest in its byte, is set exactly when the dot came out black |
| Raster.WhitePrintsNothing | pkg/print/direct.go:379-427 | An all-white image sets no bit, whatever its size |
| Raster.BlackPrintsAll | pkg/print/direct.go:379-427 | An all-black one sets every bit within its width |
| Raster.FirstDot | pkg/print/direct.go:387-416 | The first dot is printed exactly when its pixel is darker than the middle gray |
| Raster.Dither | pkg/print/direct.go:384-418 | The nested in-place loops set exactly the bits of the black cells of the pull definition |
| Raster.HeaderDecodes | pkg/print/direct.go:420-424 | The eight header bytes are GS v 0 0 and decode back to bytes per row and height |
| Raster.LevelsStayBounded | pkg/print/direct.go:387-418 | Every cell stays in (-128, 383) at every moment |
| Raster.SourceInside | pkg/print/direct.go:366-382 | Nearest-neighbour sampling never reads outside the image |
| CloudBackup.SplitStringIntoChunks | internal/integration/supabase_auth.go:956-967 | Terminates for a positive size; chunks are non-empty, full but for the last, and join back to the string |
| CloudBackup.CloudStore.UploadOrder | internal/integration/supabase_auth.go:785-795 | Chunks 1, 2, ... and chunk 0 last |
| CloudBackup.CloudStore.UploadAll | internal/integration/supabase_auth.go:797-828 | Wherever it stops, the table holds exactly the uploads that took effect, and every listed backup is whole |
| CloudBackup.AnyStopIsCommitted | internal/integration/supabase_auth.go:783-828 | After any number of uploads every listed backup is whole, and the new one is listed exactly when all of it is there |
| CloudBackup.CloudStore.CloudBackupNow | internal/integration/supabase_auth.go:737-831 | Success means the snapshot is listed and whole; only the oldest backup may go, and only when the limit is reached |
| CloudBackup.WithoutIsCommitted | internal/integration/supabase_auth.go:882-908 | Deleting a backup leaves the other listed ones whole |
| CloudBackup.CloudStore.Delete | internal/integration/supabase_auth.go:882-908 | Removes all chunks of this backup and no others |
| CloudBackup.CloudStore.RestoreCloudBackup | internal/integration/supabase_auth.go:910-946 | A listed backup restores exactly the encoded snapshot that was uploaded |
| LanSessions.LanService.RegisterClient | internal/network/lan_clients.go:25-75 | Granted exactly under the stated checks; refusal changes nothing |
| LanSessions.LanService.ValidateSessionToken | internal/network/lan_clients.go:78-102 | Granted exactly when an entry with this token is usable; unknown exactly when no entry has it, whatever the map order |
| LanSessions.LanService.UpdateClientActivity | internal/network/lan_clients.go:105-123 | Touches the one entry with this token, if idle for more than ten seconds |
| LanSessions.LanService.FindToken | internal/network/lan_clients.go:108-116 | Finds an entry with the token exactly when there is one |
| LanSessions.LanService.DisconnectClient | internal/network/lan_clients.go:140-151 | Removes exactly this device |
| LanSessions.LanService.SuspendClient | internal/network/lan_clients.go:154-166 | Suspends exactly this device |
| LanSessions.LanService.ResumeClient | internal/network/lan_clients.go:169-181 | Resumes exactly this device |
| LanSessions.LanService.BlockDevice | internal/network/lan_clients.go:184-196 | Disconnects first, so that no blocked device is connected even if storing fails; a second row for the same id is refused |
| LanSessions.LanService.UnblockDevice | internal/network/lan_clients.go:199-201 | Removes exactly this row, or fails when there is none |
| LanSessions.LanService.CleanupInactiveClients | internal/network/lan_clients.go:209-220 | Keeps exactly the entries idle at most the limit |
| LanSessions.LanService.ActiveClients | internal/network/lan_clients.go:213-219 | The walk keeps exactly the entries idle at most the limit |
| LanSessions.LanService.ClearAllClients | internal/network/lan_clients.go:223-227 | Empties the table |
| LanSessions.StepKeepsOk | internal/network/lan_clients.go:25-227 | At most 30 entries, each under its own id, tokens distinct and issued, no blocked device: kept by every operation |
| LanSessions.RegistersIff | internal/network/lan_clients.go:25-75 | Let in exactly a named device whose lookup works, neither it nor its known address blocked, not suspended, and on the table already or one of at most thirty; its entry starts anew |
| LanSessions.RunKeepsOk | internal/network/lan_clients.go:25-227 | And by every run |
| LanSessions.HoldsItsLatest | internal/network/lan_clients.go:25-227 | After any run from a start, whatever is blocked and was issued before, a device holds exactly the token of its latest registration, if nothing has ended it since |
| LanSessions.GoodTokenIff | internal/network/lan_clients.go:78-102 | After any such run a token is good exactly when it is its device's latest registration, active, from the same address, an unknown one or loopback on both sides, and idle at most 43200 seconds |
| LanSessions.DeadTokensStayDead | internal/network/lan_clients.go:56-71 | A replaced or removed token never comes back |
| LanSessions.SuspensionHolds | internal/network/lan_clients.go:44-47 | A suspended session stays unusable until it is resumed or removed; registering again does not lift it |
| LanSessions.SuspensionSurvives | internal/network/lan_clients.go:44-47 | No step but resuming or removing lifts a suspension or changes its token |
| ProductCache.ProductService.GetAllProducts | internal/service/product_service.go:38-65 | Whatever the repository answers: the cached list while it is younger than 300 seconds, else that answer, which refills the cache unless it is an error |
| ProductCache.ProductService.Index | internal/service/product_service.go:54-59 | The map built from a listing by the loop is the rows by id |
| ProductCache.ListingById | internal/service/product_service.go:54-59 | Rows by id are the catalogue, when they list it |
| ProductCache.ReadIsCurrent | internal/service/product_service.go:38-65 | Refilled from the repository's listing of the catalogue, the cache is current |
| ProductCache.ProductService.CreateProduct | internal/service/product_service.go:89-121 | Succeeds exactly for a named product with non-negative amounts and a new id; then it is in the catalogue and the cache is cleared |
| ProductCache.ProductService.UpdateProduct | internal/service/product_service.go:123-160 | Succeeds exactly for a known product with non-negative amounts; then it is replaced and the cache is cleared |
| ProductCache.ProductService.DeleteProduct | internal/service/product_service.go:162-183 | Succeeds exactly for a known product; then it is gone and the cache is cleared |
| ProductCache.ProductService.GetProductByID | internal/service/product_service.go:67-87 | The same answer as the repository, cached or not |
| ProductCache.ProductService.ClearCache | internal/service/product_service.go:30-36 | Empties list, map and time stamp |
| CacheLaws.OthersKeepProducts | internal/service/payment_service.go:54-350 | Every operation that does not clear the cache leaves every product alone |
| CacheLaws.CacheStaysCurrent | internal/service/product_service.go:30-87 | However operations, edits and reads are interleaved, the cache never shows an outdated catalogue |
| Shop.Shop.Perform | internal/service/sale_service.go:526-528 | Every service call is a step of the ledger, and clears the cache exactly when the operation succeeded and changes products: the runs of the laws are the runs of the services |
| Shop.Shop.List | internal/service/product_service.go:38-65 | The catalogue shown is always the current one |
| Shop.Shop.Save | internal/service/crm_service.go:51-121 | Saving a customer is a step of the ledger when it puts one on file, and none otherwise |
| Shop.Shop.Create | internal/service/product_service.go:89-121 | Creating a product keeps database and cache in order |
| Shop.Shop.Update | internal/service/product_service.go:123-160 | So does updating one |
| ModelRotation.AiService.SelectWeightedModel | internal/service/ai_service.go:203-229 | Chooses by the counter modulo the total weight and never falls through its loop; without weight, the first model or nothing |
| ModelRotation.AiService.NextRequest | internal/service/ai_service.go:52-53 | The 64-bit counter advances by one and wraps |
| ModelRotation.Pick | internal/service/ai_service.go:220-226 | The first position whose cumulated weight exceeds the value; no earlier one does |
| ModelRotation.ChosenIff | internal/service/ai_service.go:203-229 | A position is chosen exactly on the residues between its prefix weight and the next |
| ModelRotation.Periodic | internal/service/ai_service.go:203-229 | One total weight later the same position is chosen |
| ModelRotation.EveryCycleIsFair | internal/service/ai_service.go:203-229 | Over any total-weight many consecutive counter values, from any start, each position is chosen exactly its weight many times |

## Left out

- 64-bit width: cents, products of cents and the counters of the ledger are unbounded integers.
- Floating-point quantities and gray levels: quantities are exact thousandths and gray levels exact reals, so rounding inside
  float64 is not modelled. The VAT rate is a real.
- Raster.ImageToBitmapData: the scaled height is the exact quotient; float64 could round it down by one row.
- Clocks, UUIDs and random tokens: parameters, required to be new where the code relies on it.
- Interleavings inside one operation, such as the block check of RegisterClient before its lock or the fetch of GetAllProducts
  outside its lock: each operation is one step.
- ModelRotation.EveryCycleIsFair: stated for counter values that do not cross the 64-bit wrap-around, where fairness breaks
  unless the total weight divides 2^64.
- StockLaws.NothingOverRestoredWhileLive: sufficient only; for products in the catalogue NothingComesBackTwice is exact, and
  FlowKeptIff says by how much one step moves the goods of a deleted one.
- PartialReturnLaws.InvoiceKeptIff: says nothing of the rows of credit and split invoices, which part of the value leaves as
  debt; for those DebtKeptIff and FullReturnLaws.SplitRowsSum are stated.
- CustomerLaws.PointsFollowInvoices: a bound, not an agreement, because rounding makes the code miss by a point each time;
  PointsMove is exact for one step.
- CloudBackup.CloudStore.CloudBackupNow: compression, base64, the size comparison in megabytes and the HTTP requests are
  parameters; a deletion takes effect as a whole or not at all. The backup id must be new, because what the server does with
  a chunk id it already has is not part of this model.
- LanSessions.LanService.ValidateSessionToken: returns the client's value; the source returns a pointer into the table.
- ProductCache.ProductService.GetProductByID: images, names and costs are not modelled, and the repository's listing
  blanks long images.
- The order of rows inside a listing, audit-log entries, notes and timestamps on rows.
- UpdatePurchaseOrder, DeletePurchaseOrder, DeletePayment, DeleteCustomer and LogStockMovement: they break the laws by design.
- CrmService.CrmService.SaveCustomer: names, phone numbers and notes are not held; whether a phone number is accepted is a
  parameter.
- CreateProduct and UpdateProduct inside ledger runs: they may set stock without a movement (Shop and CacheLaws cover them).
- The names, sorting and truncation of the overdue summary's top customers.
- Supplier balances, discounts CRUD, staff login, preferences, expenses, search and paging: easy members.
