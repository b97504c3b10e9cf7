# POS and pharmacy billing core, modelled in Dafny

This project models the in-memory core of a React point-of-sale and pharmacy
application. The model covers:

- the shared store (catalog, customers, suppliers, bills, purchase entries and
  the append-only stock ledger);
- the billing screen with its cart and bill totals, and the return dialog that
  feeds it;
- the two sales-return handlers: a return to a supplier and a return from a
  customer;
- the inventory screen: manual stock adjustment and supplier bills;
- the catalog list screens;
- the notification centre and the alert monitor;
- the pharmacy reports and the customer list.

The store follows React's snapshot semantics. Every list has a live value,
which the functional setters update, and a `shown` value, which is what the
current render closed over. The lookups `getProduct`, `getCustomer` and
`getBill` read the `shown` value. A stock write therefore sets
"stock at the start of the handler ± q", and the last write to a product wins.
An event handler starts with both views equal (`Store.Settled`). The next
render makes them equal again (`Store.Render`).

Layout:

- `common.dfy`: `Option`, `Outcome` and the folds used throughout (`Sum`,
  `Filter`, `Count`, `GroupSum`, `Keys`) with their lemmas; digits,
  lower-casing and substring search.
- `records.dfy`: the records (catalog item, customer, supplier, bill, bill
  line, purchase entry, stock transaction).
- `stock_writes.dfy`: how the stock writes of one handler compose. This
  covers last-write-wins, snapshot writes against sequential arithmetic, and
  loops that skip products the snapshot lacks.
- `app_store.dfy`: the `Store` class and `addBill`, `addReturnToBill`,
  `addPurchase`, `generateBillNumber`, with their ledger reconciliation.
- `billing.dfy`, `return_modal.dfy`: the billing screen and its return dialog.
- `sales_return.dfy`: the sales-return screen (product naming).
- `sales_return_modal.dfy`: the sales-return dialog (medicine naming).
- `inventory.dfy`: both copies of the inventory screen.
- `catalog_views.dfy`: the product list and the medicine list.
- `notifications.dfy`, `alert_monitor.dfy`: notifications and alerts.
- `reports.dfy`, `customers.dfy`: the reports screen and the customer list.

Several behaviours of the code appear as proved lemmas about the code as
written:

- A bill that both sells and takes back one product keeps only the
  take-back's write to that product's stock (`SoldAndReturnedKeepsReturnOnly`).
- Two lines for one product in one purchase lose one line's stock
  (`DuplicatePurchaseLinesLoseOne`).
- A return from a customer ends with stock at "entry − q", because `addBill`
  overwrites the handler's own "+ q" (`CustomerReturnEndsAtEntryLessQ`).
- A return to a supplier records −2q in the ledger for a −q stock change
  (`SupplierReturnLedgerDoubles`).
- The dialog's supplier-return loop lowers stock by the purchased quantity.
  `addBill` then overwrites that write (`StockAndLedgerDisagree`,
  `DialogEndsLikeScreen`).
- An inventory adjustment saved after an intervening sale erases the sale's
  stock change (`SaleBeforeSaveIsLost`).
- `processBill` does not clear the return list
  (`Billing.BillingScreen.ProcessBill`).

Paths below are relative to the repository root. `AppContext.tsx` is
`frontend/src/context/AppContext.tsx`.

## Model

| member | source | states |
|---|---|---|
| Common.FindBy | frontend/src/context/AppContext.tsx:209-211 | the `find` behind `getProduct`, `getCustomer`, `getBill`, the cart-line and purchase lookups: returns an element carrying the key, and nothing exactly when no element carries it |
| Common.FindByAt | frontend/src/context/AppContext.tsx:209-211 | when no two elements share a key, `find` returns the one element carrying it |
| StockWrites.FindUnique | frontend/src/context/AppContext.tsx:209-211 | with unique ids, `getProduct` returns the one item carrying the id |
| StockWrites.ApplyWrites | frontend/src/context/AppContext.tsx:201-203 | `updateProduct` writes keep the catalog's length and every item's id |
| StockWrites.ApplyWritesAt | frontend/src/context/AppContext.tsx:201-203 | last write wins: each item ends with the last value written to its id, or keeps its stock if none was written |
| StockWrites.ApplyWritesAppend | frontend/src/context/AppContext.tsx:201-203 | writes applied in two batches equal the writes applied in one |
| StockWrites.LastWriteAppend | frontend/src/context/AppContext.tsx:201-203 | the later batch's write to an id hides the earlier batch's |
| StockWrites.ApplyDeltas | frontend/src/context/AppContext.tsx:265-279 | the sequential reference semantics keeps the catalog's length |
| StockWrites.ApplyDeltasAt | frontend/src/context/AppContext.tsx:265-279 | sequentially, each item moves by the net change requested for it |
| StockWrites.SnapshotLastWrite | frontend/src/context/AppContext.tsx:265-279 | with distinct requested ids, the last snapshot write to an id is its entry stock plus its net change |
| StockWrites.NetDeltaAbsent | frontend/src/context/AppContext.tsx:265-279 | an id never requested has net change 0 |
| StockWrites.SnapshotIsSequential | frontend/src/context/AppContext.tsx:265-279 | with unique catalog ids and distinct requested ids, snapshot writes give the same catalog as sequential arithmetic |
| StockWrites.RepeatedIdLosesChange | frontend/src/context/AppContext.tsx:265-271 | selling 1 twice from a stock of 10 leaves 9 under snapshot writes, where sequential arithmetic gives 8 |
| StockWrites.SnapshotLastAmount | frontend/src/context/AppContext.tsx:265-279 | the last snapshot write to an id is its entry stock plus the last change requested for it |
| StockWrites.SnapshotWritesAt | frontend/src/context/AppContext.tsx:265-279 | every item ends at entry stock plus the last change requested for it, or unchanged if none was requested |
| StockWrites.FoundWrites | frontend/src/context/AppContext.tsx:340-346 | a loop that skips unknown products issues at most one write per change |
| StockWrites.FoundLastAmount | frontend/src/context/AppContext.tsx:340-346 | such a loop's last write to a known id is entry stock plus the last change for it, and no unknown id is written |
| StockWrites.FoundWritesAt | frontend/src/context/AppContext.tsx:340-346 | after such a loop each item stands at entry stock plus the last change requested for it |
| StockWrites.FoundWritesSkipMissing | frontend/src/context/AppContext.tsx:340-346 | a product the snapshot lacks is never written |
| StockWrites.LastAmountDistinct | frontend/src/context/AppContext.tsx:265-279 | without repeated ids, the last change for an id is its whole net change |
| StockWrites.LastAmountAbsent | frontend/src/context/AppContext.tsx:265-279 | an id never requested has no last change |
| StockWrites.LastAmountAt | frontend/src/context/AppContext.tsx:265-279 | without repeated ids, line j's change is the last change for its id |
| StockWrites.LastAmountUniform | frontend/src/components/SalesReturn/SalesReturn.tsx:35-53 | when every change is the same amount a, each requested id's last change is a |
| StockWrites.SecondPassWins | frontend/src/context/AppContext.tsx:258-279 | a handler that writes and then calls `addBill`: `addBill`'s writes decide every product it names, the earlier writes decide the rest |
| StockWrites.UniformTwoPasses | frontend/src/components/SalesReturn/SalesReturn.tsx:35-80 | a loop moving every named product by a, followed by `addBill` moving them by a, moves each named product by a once |
| StockWrites.LowStock | frontend/src/context/AppContext.tsx:397-399 | `getLowStockProducts` holds only catalog items at or below their threshold, and every such item |
| StockWrites.LowStockInOrder | frontend/src/context/AppContext.tsx:397-399 | `getLowStockProducts` keeps catalog order |
| AppStore.CreditCustomerAt | frontend/src/context/AppContext.tsx:281-289 | the bill's customer gains exactly the bill total, every other customer is unchanged, the list keeps its length |
| AppStore.CreditCustomerUnknown | frontend/src/context/AppContext.tsx:281-289 | a bill without a customer, or naming an unknown one, leaves the customers unchanged |
| AppStore.FindCustomerUnique | frontend/src/context/AppContext.tsx:227-229 | with unique ids, `getCustomer` returns the one customer carrying the id |
| AppStore.NetQuantityAppend | frontend/src/context/AppContext.tsx:362-368 | appending to the ledger adds the appended entries' net quantity |
| AppStore.MirrorsNet | frontend/src/context/AppContext.tsx:291-316 | entries that mirror the requested changes net to the same quantity per product |
| AppStore.BillEntriesMirror | frontend/src/context/AppContext.tsx:291-316 | `addBill` appends −q per sold line then +q per returned line, the same product and signed quantity as its stock changes |
| AppStore.AddBillReconciles | frontend/src/context/AppContext.tsx:258-316 | with no product named twice, each item's new stock is its stock plus its net quantity in the new ledger entries |
| AppStore.SoldAndReturnedKeepsReturnOnly | frontend/src/context/AppContext.tsx:265-316 | a bill selling q1 and taking back q2 of one product ends at stock + q2, while the ledger nets q2 − q1 |
| AppStore.AbsTotalsNonNegative | frontend/src/context/AppContext.tsx:328 | the return amount Σ\|total\| is never negative |
| AppStore.WithReturnsReplaces | frontend/src/context/AppContext.tsx:327-338 | recording returns twice keeps only the second list; the total is at most the subtotal; lines and id are kept |
| AppStore.AddPurchaseReconciles | frontend/src/context/AppContext.tsx:370-395 | with distinct products, each item rises by exactly the quantity the purchase's ledger entries record for it |
| AppStore.DuplicatePurchaseLinesLoseOne | frontend/src/context/AppContext.tsx:370-395 | two lines for one product raise stock by the last line only, while the ledger records both |
| AppStore.BillNumberSequence | frontend/src/context/AppContext.tsx:248-256 | the bill number is `MS`, six date digits, then a field of at least four digits that reads back as today's bill count + 1; it has 12 characters below 10000 bills a day |
| AppStore.SequenceFieldValue | frontend/src/context/AppContext.tsx:248-256 | the zero-padded sequence field has at least four digits and reads back as its number |
| AppStore.IdsFreshAppend | frontend/src/context/AppContext.tsx:196-199 | handing out the counter's id and moving it on keeps ids distinct and fresh |
| AppStore.ProductIdsDistinct | frontend/src/context/AppContext.tsx:196-199 | distinct id lists give a catalog with unique ids |
| AppStore.CustomerIdsDistinct | frontend/src/context/AppContext.tsx:213-221 | distinct id lists give a customer list with unique ids |
| AppStore.Store.constructor | frontend/src/context/AppContext.tsx:196-199 | the store starts empty, settled and valid |
| AppStore.Store.Render | frontend/src/context/AppContext.tsx:209-211 | after a render the lookups see the live lists |
| AppStore.Store.GetProduct | frontend/src/context/AppContext.tsx:209-211 | `getProduct` searches the render's catalog, not the live one |
| AppStore.Store.GetLowStockProducts | frontend/src/context/AppContext.tsx:397-399 | `getLowStockProducts` lists exactly the rendered items at or below threshold |
| AppStore.Store.FreshAfterBump | frontend/src/context/AppContext.tsx:196-199 | moving the id counter on keeps every list's ids fresh |
| AppStore.Store.AddProduct | frontend/src/context/AppContext.tsx:196-199 | appends the product under a fresh id and keeps ids unique |
| AppStore.Store.UpdateStock | frontend/src/context/AppContext.tsx:201-203 | only the stock field of the item with that id changes |
| AppStore.Store.UpdateProduct | frontend/src/context/AppContext.tsx:201-203 | the item with that id takes every field of the form but keeps its id; other items are unchanged |
| AppStore.Store.DeleteProduct | frontend/src/context/AppContext.tsx:205-207 | removes exactly the items with that id, keeping the rest in order |
| AppStore.Store.AddCustomer | frontend/src/context/AppContext.tsx:213-221 | appends the customer under a fresh id, dated today, with no purchases |
| AppStore.Store.UpdateCustomer | frontend/src/context/AppContext.tsx:223-225 | rewrites the four form fields of that customer only, keeping count and ids |
| AppStore.Store.AddSupplier | frontend/src/context/AppContext.tsx:231-238 | appends the supplier under a fresh id, dated today |
| AppStore.Store.AddStockTransaction | frontend/src/context/AppContext.tsx:362-368 | the ledger gains exactly that entry at its end |
| AppStore.Store.SellStock | frontend/src/context/AppContext.tsx:266-271 | each sold line sets its product to rendered stock − q, in line order |
| AppStore.Store.RestockReturns | frontend/src/context/AppContext.tsx:274-279 | each returned line sets its product to rendered stock + q, in line order |
| AppStore.Store.RestockFound | frontend/src/context/AppContext.tsx:341-346 | each change for a rendered product sets it to rendered stock + q; others are skipped; ids are kept |
| AppStore.Store.WriteFound | frontend/src/context/AppContext.tsx:342-345 | one loop pass writes a known product and skips an unknown one |
| AppStore.Store.RecordEntries | frontend/src/context/AppContext.tsx:348-358 | the ledger gains the entries in order |
| AppStore.Store.CreditBillCustomer | frontend/src/context/AppContext.tsx:281-289 | the named customer's total becomes the rendered total + the bill total; ids are kept |
| AppStore.Store.WriteBillStock | frontend/src/context/AppContext.tsx:265-279 | sold lines are written, then returned lines, all from the render's stock |
| AppStore.Store.RecordBillEntries | frontend/src/context/AppContext.tsx:291-316 | the ledger gains the sale entries, then the return entries |
| AppStore.Store.AddBill | frontend/src/context/AppContext.tsx:258-317 | exactly one bill is appended under a fresh id; earlier bills are kept; stock, customer credit and ledger change as described above |
| AppStore.Store.AddReturnToBill | frontend/src/context/AppContext.tsx:323-360 | an unknown bill changes nothing; otherwise the bill's returns are replaced, known products rise by q, and every line gets a `return` entry |
| AppStore.Store.AddPurchase | frontend/src/context/AppContext.tsx:370-395 | the purchase is appended under a fresh id; known products rise by line quantity; one `purchase` entry is added per line |
| Billing.LineTotal | frontend/src/components/Billing/BillingSystem.tsx:81-85 | with a discount of 0–100%, the line total lies between 0 and the gross |
| Billing.BillTotals | frontend/src/components/Billing/BillingSystem.tsx:87-108 | the return amount is never negative |
| Billing.FinalTotalClosedForm | frontend/src/components/Billing/BillingSystem.tsx:87-93 | final total = subtotal × (1 − d/100) × (1 + g/100) − returns |
| Billing.DiscountThenTax | frontend/src/components/Billing/BillingSystem.tsx:87-93 | applying the discount and then GST on the discounted amount equals subtotal × (1 − d/100) × (1 + g/100) |
| Billing.SavingsAreGrossLessCharged | frontend/src/components/Billing/BillingSystem.tsx:94-98 | savings = Σ gross line prices − the discounted amount before GST |
| Billing.TotalsExample | frontend/src/components/Billing/BillingSystem.tsx:87-108 | a line of 1000 with 10% off and 18% GST totals 1062, with 100 saved |
| Billing.FindLineAt | frontend/src/components/Billing/BillingSystem.tsx:47 | with one line per product, finds that product's line |
| Billing.AddedToCart | frontend/src/components/Billing/BillingSystem.tsx:46-67 | a product already in the cart keeps the length; a new one appends the fresh line |
| Billing.AddedToCartEffect | frontend/src/components/Billing/BillingSystem.tsx:46-67 | one more unit of the product and no change to any other product; lines stay one per product; stored totals are not recomputed |
| Billing.WithoutLine | frontend/src/components/Billing/BillingSystem.tsx:70-71 | dropping a line keeps the other lines in order |
| Billing.WithoutLineDistinct | frontend/src/components/Billing/BillingSystem.tsx:70-71 | after dropping, lines stay one per product and the product has no line |
| Billing.WithoutLineKeepsOther | frontend/src/components/Billing/BillingSystem.tsx:70-71 | dropping one product keeps every other product's quantity |
| Billing.WithoutLineEffect | frontend/src/components/Billing/BillingSystem.tsx:70-71 | the product's quantity becomes 0 and every other product's is kept |
| Billing.UpdatedCart | frontend/src/components/Billing/BillingSystem.tsx:69-77 | q ≤ 0 keeps a subsequence; q > 0 keeps the length |
| Billing.SameProductsFind | frontend/src/components/Billing/BillingSystem.tsx:73-76 | rewriting lines in place keeps one line per product at the same places |
| Billing.SetInCart | frontend/src/components/Billing/BillingSystem.tsx:73-76 | with q > 0, the product's quantity becomes q if it had a line, others are kept, and no stored total changes |
| Billing.BuiltBillReconciles | frontend/src/components/Billing/BillingSystem.tsx:131-151 | total = subtotal − discount + GST − returns; paid in full; a customer exactly when one was chosen; returns exactly when the return list is not empty |
| Billing.BillListsPartition | frontend/src/components/Billing/BillingSystem.tsx:225-227 | regular and return bills split the bill list, each keeping order |
| Billing.BillPrefixIsRegular | frontend/src/components/Billing/BillingSystem.tsx:131-135 | a `BILL-` number is always a regular bill |
| Billing.BillingScreen.constructor | frontend/src/components/Billing/BillingSystem.tsx:11-38 | empty cart and return list, no discount, 18% GST, cash, walk-in customer |
| Billing.BillingScreen.AddToBill | frontend/src/components/Billing/BillingSystem.tsx:46-67 | the cart becomes `AddedToCart` and stays one line per product |
| Billing.BillingScreen.UpdateQuantity | frontend/src/components/Billing/BillingSystem.tsx:69-77 | the cart becomes `UpdatedCart` and stays one line per product |
| Billing.BillingScreen.HandleReturnItems | frontend/src/components/Billing/BillingSystem.tsx:220-222 | the return list becomes the confirmed one |
| Billing.BillingScreen.CancelBillCreation | frontend/src/components/Billing/BillingSystem.tsx:204-218 | leaves bill creation with an empty cart, no returns, no discount and the walk-in customer |
| Billing.BillingScreen.ProcessBill | frontend/src/components/Billing/BillingSystem.tsx:128-175 | an empty cart or no customer changes nothing; otherwise the built bill goes through `addBill` and cart, discount and customer reset, while the return list is kept |
| ReturnDialog.WithReturn | frontend/src/components/Billing/ReturnModal.tsx:37-57 | a listed item's line gains q at −price × new quantity; otherwise a new line is appended; other lines are untouched |
| ReturnDialog.AcceptedIffAvailable | frontend/src/components/Billing/ReturnModal.tsx:23-35 | an add is accepted exactly when q > 0, the item is known, and q fits within `getAvailableQuantity` |
| ReturnDialog.WithReturnShape | frontend/src/components/Billing/ReturnModal.tsx:50-57 | accepting keeps one positive line per item |
| ReturnDialog.WithReturnEffect | frontend/src/components/Billing/ReturnModal.tsx:37-57 | the item's returned quantity grows by q, others are kept, and its line total is −price × quantity |
| ReturnDialog.WithReturnOwnLine | frontend/src/components/Billing/ReturnModal.tsx:37-57 | after a return of q the item has a line, its returned quantity grew by q, and the line total is the return total of that quantity |
| ReturnDialog.WithReturnOtherLine | frontend/src/components/Billing/ReturnModal.tsx:50-55 | adding a return for one item leaves the returned quantity of every other item unchanged |
| ReturnDialog.AcceptedStaysWithinStock | frontend/src/components/Billing/ReturnModal.tsx:29-35 | an accepted add keeps every line within its item's stock |
| ReturnDialog.ReturnModal.constructor | frontend/src/components/Billing/ReturnModal.tsx:18-20 | nothing selected, quantity 1, empty list |
| ReturnDialog.ReturnModal.HandleAddReturn | frontend/src/components/Billing/ReturnModal.tsx:22-62 | a rejected add changes nothing; an accepted one updates the list and resets selection and quantity; the stock bound is preserved |
| ReturnDialog.ReturnModal.HandleRemoveReturn | frontend/src/components/Billing/ReturnModal.tsx:64-66 | removes that item's line only |
| ReturnDialog.ReturnModal.HandleConfirmReturn | frontend/src/components/Billing/ReturnModal.tsx:68-75 | hands over the list, and never an empty one |
| SalesReturns.PurchaseReturnAccepted | frontend/src/components/SalesReturn/SalesReturn.tsx:20-32 | accepted exactly when a known purchase is selected and q > 0 |
| SalesReturns.CustomerReturnAccepted | frontend/src/components/SalesReturn/SalesReturn.tsx:93-110 | accepted exactly when a known product is selected, q > 0 and stock ≥ q |
| SalesReturns.ReturnedItemsSum | frontend/src/components/SalesReturn/SalesReturn.tsx:55-79 | Σ returned item totals = q × Σ purchase prices |
| SalesReturns.PurchaseReturnBillTotals | frontend/src/components/SalesReturn/SalesReturn.tsx:55-79 | subtotal = total = q × Σ purchase prices = Σ item totals; no discount, GST or payment |
| SalesReturns.SupplierReturnDeltaIds | frontend/src/components/SalesReturn/SalesReturn.tsx:35-80 | the loop and `addBill` request −q for exactly the purchase's products |
| SalesReturns.SupplierReturnEndsAtEntryLessQ | frontend/src/components/SalesReturn/SalesReturn.tsx:35-80 | every product of the purchase ends at entry − q, and every other product is unchanged |
| SalesReturns.SupplierReturnEntriesMirror | frontend/src/components/SalesReturn/SalesReturn.tsx:45-52 | one `return` entry of −q per purchase line |
| SalesReturns.SupplierReturnLedgerDoubles | frontend/src/components/SalesReturn/SalesReturn.tsx:35-80 | with distinct products, the ledger records −2q per product for a stock change of −q |
| SalesReturns.CustomerReturnBillTotals | frontend/src/components/SalesReturn/SalesReturn.tsx:128-153 | one line with total = subtotal = total amount = q × selling price |
| SalesReturns.CustomerReturnAt | frontend/src/components/SalesReturn/SalesReturn.tsx:112-154 | the returned product ends at entry − q and every other product is unchanged |
| SalesReturns.CustomerReturnEndsAtEntryLessQ | frontend/src/components/SalesReturn/SalesReturn.tsx:112-154 | the handler's + q is overwritten by `addBill`'s sale: the product ends at entry − q |
| SalesReturns.CustomerReturnLedgerCancels | frontend/src/components/SalesReturn/SalesReturn.tsx:112-154 | the ledger records + q then − q: net 0 for the product |
| SalesReturns.WriteAndRecordStep | frontend/src/components/SalesReturn/SalesReturn.tsx:36-52 | one loop pass writes a known product and appends its entry |
| SalesReturns.WriteAndRecord | frontend/src/components/SalesReturn/SalesReturn.tsx:35-53 | the loop writes each known product and appends one entry per line |
| SalesReturns.ReturnToSupplier | frontend/src/components/SalesReturn/SalesReturn.tsx:35-80 | the loop then `addBill`: one `PURCHASE-` bill, the stock of `AfterSupplierReturn`, customers untouched |
| SalesReturns.TakeBackFromCustomer | frontend/src/components/SalesReturn/SalesReturn.tsx:112-154 | the write, the entry, then `addBill`: one `CUSTOMER-` bill, the stock of `AfterCustomerReturn` |
| SalesReturns.SalesReturnScreen.constructor | frontend/src/components/SalesReturn/SalesReturn.tsx:13-16 | nothing selected, quantity 0, no reason |
| SalesReturns.SalesReturnScreen.HandlePurchaseReturn | frontend/src/components/SalesReturn/SalesReturn.tsx:19-90 | a rejected return changes nothing; an accepted one returns to the supplier and resets the form |
| SalesReturns.SalesReturnScreen.HandleCustomerReturn | frontend/src/components/SalesReturn/SalesReturn.tsx:92-165 | a rejected return changes nothing; an accepted one takes the product back with `mrp` = purchase price and resets the form |
| SalesReturnDialog.PurchasedQuantityDeltaIds | frontend/src/components/SalesReturn/SalesReturnModal.tsx:37-42 | the dialog's loop names exactly the purchase's products |
| SalesReturnDialog.LoopLowersByPurchasedQuantity | frontend/src/components/SalesReturn/SalesReturnModal.tsx:37-42 | the loop lowers each product by the quantity it was bought in, not by the returned quantity |
| SalesReturnDialog.DialogAt | frontend/src/components/SalesReturn/SalesReturnModal.tsx:37-81 | after the loop and `addBill`, each purchase product ends at entry − q and the others are unchanged |
| SalesReturnDialog.DialogEndsLikeScreen | frontend/src/components/SalesReturn/SalesReturnModal.tsx:37-81 | the dialog ends with the same catalog as the sales-return screen |
| SalesReturnDialog.StockAndLedgerDisagree | frontend/src/components/SalesReturn/SalesReturnModal.tsx:37-81 | 5 bought, 2 returned: the loop lowers stock by 5, the end state by 2, and the ledger records −4 |
| SalesReturnDialog.DisagreeingLoop | frontend/src/components/SalesReturn/SalesReturnModal.tsx:37-81 | 5 bought, 2 returned: the loop lowers stock by the 5 units purchased |
| SalesReturnDialog.DisagreeingEnd | frontend/src/components/SalesReturn/SalesReturnModal.tsx:37-81 | 5 bought, 2 returned: after `addBill` the stock stands 2 below the start |
| SalesReturnDialog.DisagreeingLedger | frontend/src/components/SalesReturn/SalesReturnModal.tsx:37-81 | 5 bought, 2 returned: the loop's ledger entry records −2, and −4 together with `addBill`'s own entry |
| SalesReturnDialog.ReturnToSupplierByLine | frontend/src/components/SalesReturn/SalesReturnModal.tsx:37-81 | the loop then `addBill`: one `PURCHASE-` bill, the dialog's catalog, customers untouched |
| SalesReturnDialog.SalesReturnModal.constructor | frontend/src/components/SalesReturn/SalesReturnModal.tsx:14-17 | nothing selected, quantity 0, no reason |
| SalesReturnDialog.SalesReturnModal.HandlePurchaseReturn | frontend/src/components/SalesReturn/SalesReturnModal.tsx:20-91 | a rejected return changes nothing; an accepted one runs the dialog's return and resets the form |
| SalesReturnDialog.SalesReturnModal.HandleCustomerReturn | frontend/src/components/SalesReturn/SalesReturnModal.tsx:93-166 | as on the screen, with the item's own `mrp` on the bill line |
| Inventory.StockUpdateCheck | frontend/src/components/Inventory/InventoryManagement.tsx:40-49 | accepted exactly when an item is selected, q ≠ 0 and stock + q ≥ 0 |
| Inventory.AdjustmentReconciles | frontend/src/components/Inventory/InventoryManagement.tsx:52-62 | an accepted adjustment moves the stock by the ledger quantity, keeps it non-negative, and leaves other items alone |
| Inventory.SaleBeforeSaveIsLost | frontend/src/components/Inventory/InventoryManagement.tsx:52 | a sale between choosing and saving is overwritten: the catalog ends q above the start while the ledger nets q − s |
| Inventory.FindSupplier | frontend/src/components/Inventory/InventoryManagement.tsx:113 | finds the chosen supplier when one with that id exists |
| Inventory.PurchaseFormCheck | frontend/src/components/Inventory/InventoryManagement.tsx:113-122 | accepted exactly when the supplier is known, there is an invoice number, there are rows, and every row is valid and names a known item |
| Inventory.PurchaseLinesFollowForm | frontend/src/components/Inventory/InventoryManagement.tsx:124-134 | each purchase line carries its row's product, quantity and price and the catalog's name and batch |
| Inventory.PurchaseTotalOfForm | frontend/src/components/Inventory/InventoryManagement.tsx:136 | the purchase total = Σ quantity × price over the rows |
| Inventory.ValidRowsCostSomething | frontend/src/components/Inventory/InventoryManagement.tsx:120-122 | valid rows add up to a positive total |
| Inventory.AcceptedFormTotal | frontend/src/components/Inventory/InventoryManagement.tsx:111-148 | an accepted form records a positive total equal to Σ quantity × price |
| Inventory.SubmittedRowRaisesStock | frontend/src/components/Inventory/InventoryManagement.tsx:124-144 | with distinct rows, each named item rises by its row's quantity |
| Inventory.InventoryScreen.constructor | frontend/src/components/Inventory/InventoryManagement.tsx:30-37 | both forms closed and blank |
| Inventory.InventoryScreen.SelectProduct | frontend/src/components/Inventory/InventoryManagement.tsx:396-399 | keeps a copy of the rendered item; an unknown id keeps the selection |
| Inventory.InventoryScreen.HandleStockUpdate | Super_/frontend/src/components/Inventory/InventoryManagement.tsx:39-69 | a rejected adjustment changes nothing; an accepted one writes selected stock + q, appends one `ADJ-` entry and closes the form |
| Inventory.InventoryScreen.HandleSubmitPurchase | Super_/frontend/src/components/Inventory/InventoryManagement.tsx:111-148 | a rejected form records nothing; an accepted one records the purchase through `addPurchase` and resets the form |
| CatalogViews.StockStatusOf | frontend/src/components/Products/ProductList.tsx:65-73 | low iff stock ≤ threshold; medium iff threshold < stock ≤ 2 × threshold; good otherwise |
| CatalogViews.LowStatusIffListed | frontend/src/components/Medicines/MedicineList.tsx:65-73 | an item shows as low exactly when `getLowStockProducts` lists it |
| CatalogViews.FilteredItemsSpec | frontend/src/components/Products/ProductList.tsx:25-47 | the list shown keeps order and holds exactly the items matching the search and passing the type filter; no search and no filter show everything |
| CatalogViews.LowStockFilterIsLowStock | frontend/src/components/Medicines/MedicineList.tsx:25-47 | the low-stock filter without a search equals `getLowStockProducts` |
| CatalogViews.LowerTwice | frontend/src/components/Medicines/MedicineList.tsx:29-35 | lower-casing twice is lower-casing once |
| CatalogViews.SearchIgnoresCase | frontend/src/components/Medicines/MedicineList.tsx:29-35 | searching for the lower-cased term shows the same list |
| CatalogViews.TotalValueAfterStockWrite | frontend/src/components/Products/ProductList.tsx:145 | a stock write moves the total value by the stock change × selling price |
| CatalogViews.TotalValueNonNegative | frontend/src/components/Medicines/MedicineList.tsx:143 | with no negative stock or price, the total value is not negative |
| Notifications.WithoutDropsExactly | frontend/src/context/NotificationContext.tsx:49-51 | removal keeps exactly the entries with other ids, in order |
| Notifications.MarkedReadSpec | frontend/src/context/NotificationContext.tsx:53-55 | marking keeps length and order, changes only the read flag of that id, and is idempotent |
| Notifications.MarkedReadUnread | frontend/src/context/NotificationContext.tsx:53-65 | after marking, the unread count is that of the other ids |
| Notifications.AllReadSpec | frontend/src/context/NotificationContext.tsx:57-59 | marking all leaves nothing unread |
| Notifications.PostRaisesUnread | frontend/src/context/NotificationContext.tsx:38-47 | posting raises the unread count by one |
| Notifications.TitleOr | frontend/src/context/NotificationContext.tsx:72-86 | the caller's title, else the wrapper's default |
| Notifications.NotificationCenter.constructor | frontend/src/context/NotificationContext.tsx:23 | starts empty |
| Notifications.NotificationCenter.AddNotification | frontend/src/context/NotificationContext.tsx:38-47 | the new unread notification goes first, stamped with the clock |
| Notifications.NotificationCenter.RemoveNotification | frontend/src/context/NotificationContext.tsx:49-51 | drops the entries with that id |
| Notifications.NotificationCenter.MarkAsRead | frontend/src/context/NotificationContext.tsx:53-55 | marks the entries with that id read |
| Notifications.NotificationCenter.MarkAllAsRead | frontend/src/context/NotificationContext.tsx:57-59 | marks every entry read |
| Notifications.NotificationCenter.ClearAll | frontend/src/context/NotificationContext.tsx:61-63 | empties the list |
| Notifications.NotificationCenter.Unread | frontend/src/context/NotificationContext.tsx:65 | the unread count never exceeds the list length |
| Notifications.NotificationCenter.ShowSuccess | frontend/src/context/NotificationContext.tsx:72-74 | posts a success notice titled "Success" by default |
| Notifications.NotificationCenter.ShowError | frontend/src/context/NotificationContext.tsx:76-78 | posts an error notice titled "Error" by default |
| Notifications.NotificationCenter.ShowWarning | frontend/src/context/NotificationContext.tsx:80-82 | posts a warning titled "Warning" by default |
| Notifications.NotificationCenter.ShowInfo | frontend/src/context/NotificationContext.tsx:84-86 | posts an info notice titled "Information" by default |
| Alerts.IdSetMember | frontend/src/components/Notifications/AlertMonitor.tsx:43-44 | an id is in the set exactly when some item carries it |
| Alerts.FirstSightingsSpec | frontend/src/components/Notifications/AlertMonitor.tsx:18-26 | a pass announces each flagged id not yet notified exactly once, and nothing else |
| Alerts.Newest | frontend/src/components/Notifications/AlertMonitor.tsx:18-40 | one notification per announced item |
| Alerts.NewestStamped | frontend/src/components/Notifications/AlertMonitor.tsx:18-40 | every notification of a run is unread and carries the run's clock reading as its id |
| Alerts.Announce | frontend/src/components/Notifications/AlertMonitor.tsx:20-23 | posts the check's notice first |
| Alerts.NotifyNew | frontend/src/components/Notifications/AlertMonitor.tsx:18-26 | the notified set gains the flagged ids, and one notice is posted per first sighting, newest first |
| Alerts.NotifyOne | frontend/src/components/Notifications/AlertMonitor.tsx:18-26 | one step of the pass: the notified set then covers items 0..i, and the list holds, newest first, one notice per first sighting among them |
| Alerts.Prune | frontend/src/components/Notifications/AlertMonitor.tsx:47-57 | the notified set keeps exactly the ids still flagged |
| Alerts.AnnouncedIffNewlyFlagged | frontend/src/components/Notifications/AlertMonitor.tsx:14-57 | across two runs, an id is announced in the second exactly when it is flagged now and was not before |
| Alerts.DismissingOneDismissesRun | frontend/src/components/Notifications/AlertMonitor.tsx:14-57 | when a run's alerts are all posted at one clock reading, dismissing that id removes every alert of the run and keeps older notices with other ids |
| Alerts.AlertMonitor.constructor | frontend/src/components/Notifications/AlertMonitor.tsx:11-12 | both notified sets start empty |
| Alerts.AlertMonitor.Run | frontend/src/components/Notifications/AlertMonitor.tsx:14-59 | afterwards the notified sets are exactly the ids flagged now, and the centre holds the run's expiry errors, then its low-stock warnings, then the earlier notices |
| Reports.FilteredBillsSpec | Super_/frontend/src/components/Reports/Reports.tsx:46-52 | keeps the bills dated inside the window, in order, and no others |
| Reports.AverageTransaction | Super_/frontend/src/components/Reports/Reports.tsx:59 | average × bill count = total sales; 0 without bills |
| Reports.TotalItemsCountsLines | Super_/frontend/src/components/Reports/Reports.tsx:58 | total items = the number of bill lines |
| Reports.Tally | Super_/frontend/src/components/Reports/Reports.tsx:62-72 | the map's keys are exactly the keys seen, each holding its group's sum |
| Reports.SumOfOnes | Super_/frontend/src/components/Reports/Reports.tsx:69-72 | counting by adding 1 per bill gives the bill count |
| Reports.DailySales | Super_/frontend/src/components/Reports/Reports.tsx:62-66 | one entry per bill date, holding that day's total |
| Reports.DailySalesAddUp | Super_/frontend/src/components/Reports/Reports.tsx:56-66 | the daily totals add up to the total sales |
| Reports.PaymentModes | Super_/frontend/src/components/Reports/Reports.tsx:69-72 | one entry per payment mode used, holding its bill count |
| Reports.PaymentModesAddUp | Super_/frontend/src/components/Reports/Reports.tsx:69-72 | the per-mode counts add up to the number of bills |
| Reports.TaxableIsSalesLessGst | Super_/frontend/src/components/Reports/Reports.tsx:87-88 | the taxable amount = total sales − GST collected |
| Reports.AddLineStep | Super_/frontend/src/components/Reports/Reports.tsx:91-98 | adding a line credits its total and GST to its rate only |
| Reports.GstByRate | Super_/frontend/src/components/Reports/Reports.tsx:90-99 | one entry per rate used, holding Σ line totals and Σ line GST at that rate |
| Reports.RatesCoverAllLines | Super_/frontend/src/components/Reports/Reports.tsx:90-99 | the taxable amounts over all rates add up to Σ line totals |
| Reports.ProfitMargin | Super_/frontend/src/components/Reports/Reports.tsx:128-129 | 0 without revenue; at most 100 with non-negative cost; non-negative when cost ≤ revenue |
| Reports.RevenueCostSnoc | Super_/frontend/src/components/Reports/Reports.tsx:115-121 | one more line adds its total and cost only when its item is in the catalog |
| Reports.ProfitData | Super_/frontend/src/components/Reports/Reports.tsx:111-133 | revenue and cost are summed over the lines with a known item; profit = revenue − cost; the margin is as above |
| Reports.UnknownLinesIgnored | Super_/frontend/src/components/Reports/Reports.tsx:116-120 | lines whose item left the catalog count neither as revenue nor as cost |
| Reports.CategoryStock | Super_/frontend/src/components/Reports/Reports.tsx:144-148 | one entry per category ("Other" for none), holding its stock |
| Reports.CategoryStockAddsUp | Super_/frontend/src/components/Reports/Reports.tsx:144-148 | the category totals add up to the total stock, and "" is never a key |
| Reports.InventoryFigures | Super_/frontend/src/components/Reports/Reports.tsx:137-141 | the low-stock count never exceeds the item count |
| Customers.LatestDate | Super_/frontend/src/components/Customers/CustomerList.tsx:31-32 | the latest date is one of the bills' dates and bounds them all |
| Customers.StatsOf | Super_/frontend/src/components/Customers/CustomerList.tsx:27-40 | visits ≤ bills; a last visit is nonzero, attained and latest; none means every visit is on day 0 or earlier |
| Customers.StatsAfterBill | Super_/frontend/src/components/Customers/CustomerList.tsx:27-40 | a new bill adds its amount and one visit to its own customer only, and becomes the last visit when newest |
| Customers.FilteredCustomersSpec | Super_/frontend/src/components/Customers/CustomerList.tsx:19-25 | keeps order, holds exactly the matching customers, and is everyone when the search is empty |
| Customers.CustomerScreen.constructor | Super_/frontend/src/components/Customers/CustomerList.tsx:10-17 | blank closed form |
| Customers.CustomerScreen.HandleEdit | Super_/frontend/src/components/Customers/CustomerList.tsx:63-72 | opens the form on the customer's fields |
| Customers.CustomerScreen.HandleFormClose | Super_/frontend/src/components/Customers/CustomerList.tsx:74-78 | closes and clears the form |
| Customers.CustomerScreen.HandleSubmit | Super_/frontend/src/components/Customers/CustomerList.tsx:42-61 | without a name or phone nothing changes; editing rewrites that customer only; adding appends one fresh customer; the form then closes blank |

## Left out

- Persistence in `localStorage`, PDF generation, login, routing and all rendering: these are I/O or presentation.
- Clock readings (`new Date()`, `Date.now()`, bill stamps, today's date, calendar fields) are parameters. The report's date-range presets (`getDateRangeFilter`) are replaced by a given window.
- Ids come from a counter (`nextId`) rather than `Date.now().toString()`. So the model never creates two records with one id, which the source can do within a millisecond.
- Money is `real`: floating-point rounding, `toFixed` and `toLocaleString` are not modelled.
- Form parsing (`parseInt`, `parseFloat`, empty strings as numbers) is not modelled. Form fields hold typed values.
- `isSubmitting` flags, `try`/`catch` blocks, `window.confirm` and the toast notices the store and the handlers post (the `show*` calls in `AppContext.tsx` 413-451 and in each handler) are left out. The notice centre itself is modelled.
- `Customers.CustomerScreen.HandleSubmit`: the handler calls the store hook inside the event handler. It is modelled as if that call returned the store.
- `Inventory.InventoryScreen.HandleStockUpdate`: its validation messages also call the store hook inside the handler. Only the rejection is modelled, not the message.
- The bill's time-of-day and staff fields are not modelled; nor is the list sorting before display.
- The Super_ copies of the inventory screen are modelled once, by `Inventory`. They differ only in naming and in treating a missing batch or expiry as "".
- The bill line's `medicineId` (in `types/index.ts`) and `productId` (in the store) are one field. The return dialog's `medicines` prop, which the billing screen passes as `products`, is the catalog.
- Medicine-named store calls: the store in `frontend/src/context/AppContext.tsx` defines no `medicines`, `updateMedicine`, `deleteMedicine` or `getLowStockMedicines`. Four parts of the model rest on screens that read them: `SalesReturnDialog` (`SalesReturnModal.tsx`), `Alerts.AlertMonitor.Run` (`AlertMonitor.tsx`, which also reads `getExpiringMedicines`), the medicine-list views of `CatalogViews` (`MedicineList.tsx`) and `Reports` (`Super_/frontend/src/components/Reports/Reports.tsx`). The model reads `medicines` as `products`, `updateMedicine` as `updateProduct`, `deleteMedicine` as `deleteProduct` and `getLowStockMedicines` as `getLowStockProducts`. Taken literally against this store, the names are undefined. The return dialog's `medicines.find` would then throw inside its `try`, so no stock would be written and only the error notice posted, and the alert monitor's effect would throw too. The model does not capture that failure.
- `startNewBill`, `updateSupplier`, `getSupplier`, `getCustomerHistory`, the billing screen's product search and the dashboards are not part of this model.
- Store handlers require `Store.Settled()`: the model describes a handler run on a rendered screen, not one racing an earlier handler of the same event.
- `Alerts.ExpiryMessage`: the days to expiry are a parameter, and `toLocaleDateString` is not reproduced. The list of expiring items (`getExpiringMedicines`) is a parameter too, because it reads the clock.
- `Notifications.NotificationCenter.AddNotification`: the notification's timestamp field is not modelled; its id is the clock reading.
- `Alerts.AlertMonitor.Run`: one run is modelled within a single clock reading `now`, so every alert it posts gets the same id. The source reads `Date.now()` afresh in each `addNotification`, so a run that crosses a millisecond boundary gives its alerts several ids; the model does not capture that case.
- `Alerts.DismissingOneDismissesRun`: holds only for a run posted within one clock reading, as above. When a run spans several readings, dismissing one id removes only the alerts posted at that reading.
- `Reports.GstByRate`: the keys are the rates as numbers rather than the strings `` `${rate}%` ``.
- `Customers.StatsOf`: dates are day numbers. The source compares time values, so "day 0" stands for the epoch instant.
- The customer list's "Active This Month" card (clock) and "Total Revenue" card (a plain sum of `StatsOf`) are not modelled.
- `Common.Lower` lower-cases ASCII letters only; locale-aware case mapping is not modelled.
