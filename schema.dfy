/**
 * The café's database: customers keyed by phone, products keyed by id,
 * invoices, invoice items and the append-only stock-history ledger.
 * Timestamps (`created_at`, `last_visit`) are not part of this model.
 */
module Schema {
  import opened Common

  /** A row of `customers`; `phone` is unique, so the table is a map from phone to row. */
  datatype Customer = Customer(
    id: nat,
    name: string,
    phone: string,
    email: Option<string>,
    purchases: nat,
    spent: real)

  /** A row of `products`; `active` is the soft-delete flag `is_active`. */
  datatype Product = Product(
    name: string,
    category: string,
    price: real,
    stock: int,
    minStock: int,
    icon: string,
    active: bool)

  /** A row of `invoices`, with the customer's name and phone as they were at sale time. */
  datatype Invoice = Invoice(
    id: nat,
    number: string,
    customerId: nat,
    customerName: string,
    customerPhone: string,
    paymentMethod: string,
    subtotal: real,
    tax: real,
    total: real)

  /** A row of `invoice_items`: a snapshot of one sold line. */
  datatype InvoiceItem = InvoiceItem(
    invoiceId: nat,
    productId: int,
    productName: string,
    category: string,
    quantity: int,
    unitPrice: real,
    totalPrice: real)

  datatype ChangeType = Initial | Sale | Adjustment

  /** A row of `stock_history`: a signed change of one product's stock and its cause. */
  datatype StockEntry = StockEntry(
    productId: int,
    change: int,
    kind: ChangeType,
    reference: Option<nat>,
    note: string)

  /** The whole database, with the next value of each auto-increment key. */
  datatype Tables = Tables(
    customers: map<string, Customer>,
    nextCustomerId: nat,
    products: map<int, Product>,
    nextProductId: int,
    invoices: seq<Invoice>,
    nextInvoiceId: nat,
    items: seq<InvoiceItem>,
    history: seq<StockEntry>)

  /** The sum of the ledger's changes for one product. */
  function LedgerSum(history: seq<StockEntry>, product: int): int {
    if history == [] then 0
    else
      var last := history[|history| - 1];
      LedgerSum(history[..|history| - 1], product) + (if last.productId == product then last.change else 0)
  }

  /** A product the ledger never mentions has a ledger sum of zero. */
  lemma {:induction false} LedgerSumUnmentioned(history: seq<StockEntry>, product: int)
    requires forall k | 0 <= k < |history| :: history[k].productId != product
    ensures LedgerSum(history, product) == 0
  {
    if history != [] {
      LedgerSumUnmentioned(history[..|history| - 1], product);
    }
  }

  /** The ledger reconciles: every product's stock is the sum of its history changes. */
  predicate Reconciled(t: Tables) {
    forall p | p in t.products :: LedgerSum(t.history, p) == t.products[p].stock
  }

  /** The invariant every operation of the model keeps. */
  predicate Consistent(t: Tables) {
    && (forall p | p in t.products :: p < t.nextProductId)
    && (forall k | 0 <= k < |t.history| :: t.history[k].productId in t.products)
    && Reconciled(t)
    && (forall ph | ph in t.customers :: t.customers[ph].phone == ph && t.customers[ph].id < t.nextCustomerId)
    && (forall k | 0 <= k < |t.invoices| :: t.invoices[k].id < t.nextInvoiceId)
  }

  /** The empty database, every auto-increment key starting at 1. */
  function EmptyTables(): (t: Tables)
    ensures Consistent(t)
  {
    Tables(map[], 1, map[], 1, [], 1, [], [])
  }
}
