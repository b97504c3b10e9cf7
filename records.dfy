/** The records the store keeps. Optional text fields that the screens read
    with `x || ''` or test with `!x` are plain strings, "" standing for absent. */
module Records {
  import opened Common

  /** A catalog entry. The retail screens call it a Product (name, brand,
      category); the pharmacy screens read the same record as a Medicine
      (manufacturer, batch, MRP). */
  datatype CatalogItem = CatalogItem(
    id: Id,
    name: string,
    brand: string,
    manufacturer: string,
    category: string,
    batchNo: string,
    expiryDate: string,
    mrp: real,
    purchasePrice: real,
    sellingPrice: real,
    stockQuantity: int,
    minStockLevel: int)

  datatype Customer = Customer(
    id: Id,
    name: string,
    phone: string,
    email: string,
    address: string,
    registeredOn: Date,
    totalPurchases: real)

  datatype Supplier = Supplier(id: Id, name: string, phone: string, email: string, address: string, registeredOn: Date)

  /** A bill line. A return line carries a positive quantity and a negative total. */
  datatype BillItem = BillItem(
    productId: Id,
    productName: string,
    batchNo: string,
    quantity: int,
    mrp: real,
    sellingPrice: real,
    discount: real,
    gstRate: real,
    total: real,
    isReturn: bool)

  datatype PaymentMode = Cash | Card | Upi | Wallet

  datatype Bill = Bill(
    id: Id,
    billNumber: string,
    date: Date,
    customerId: Option<Id>,
    customerName: Option<string>,
    items: seq<BillItem>,
    returnItems: Option<seq<BillItem>>,
    subtotal: real,
    totalDiscount: real,
    gstAmount: real,
    returnAmount: Option<real>,
    totalAmount: real,
    paymentMode: PaymentMode,
    paidAmount: real,
    changeAmount: real)

  datatype TxType = PurchaseTx | SaleTx | ReturnTx | AdjustmentTx

  /** A ledger entry; its identity is its position in the append-only ledger. */
  datatype StockTransaction = StockTransaction(
    txType: TxType,
    productId: Id,
    productName: string,
    quantity: int,
    date: Date,
    reference: string,
    notes: string)

  datatype PurchaseLine = PurchaseLine(
    productId: Id,
    productName: string,
    quantity: int,
    purchasePrice: real,
    batchNo: string,
    expiryDate: string)

  datatype PurchaseEntry = PurchaseEntry(
    id: Id,
    supplierName: string,
    invoiceNo: string,
    date: Date,
    items: seq<PurchaseLine>,
    totalAmount: real)

  /** Why a screen handler gave up without touching the store. */
  datatype Failure =
    | MissingInput        // nothing selected, or a quantity that is not positive / zero
    | NotFound            // the selected purchase, product or medicine does not exist
    | InsufficientStock   // a customer return larger than the stock on hand
    | BelowZero           // a manual adjustment that would make stock negative
    | MissingSupplier
    | MissingInvoice
    | InvalidItems
    | UnknownProduct      // a form line names a product the catalog lacks: the handler throws

  datatype Outcome = Done | Rejected(failure: Failure)

  // The keys the screens search by.
  function ItemId(p: CatalogItem): Id { p.id }
  function CustomerId(c: Customer): Id { c.id }
  function SupplierId(s: Supplier): Id { s.id }
  function BillId(b: Bill): Id { b.id }
  function LineProduct(item: BillItem): Id { item.productId }
  function PurchaseId(e: PurchaseEntry): Id { e.id }

  /** `Math.abs(item.total)`: a line's total made positive, as the return
      amount adds them up. */
  function AbsTotal(item: BillItem): real {
    if item.total < 0.0 then -item.total else item.total
  }

  function BillStamp(b: Bill): string { b.billNumber }
  function BillDate(b: Bill): Date { b.date }
  function BillAmount(b: Bill): real { b.totalAmount }
}
