/**
 * The sale transaction of `save_invoice.php`, as a function of the database
 * before the request: validate the request, upsert the customer, allocate the
 * invoice number, insert the invoice, then for every cart line re-read the
 * stock, insert the item, decrement the stock and log a `SALE` ledger entry.
 * Either every write is kept (`Saved`) or none is (`Failed`).
 */
module Sales {
  import opened Common
  import opened Schema
  import InvoiceNumber

  /** One element of the request's `items`. */
  datatype Line = Line(id: int, name: string, category: string, price: real, quantity: int)

  /** The decoded JSON body; a field that is absent or null is `None`. */
  datatype SaleRequest = SaleRequest(
    customerName: Option<string>,
    customerPhone: Option<string>,
    email: Option<string>,
    paymentMethod: Option<string>,
    items: Option<seq<Line>>,
    subtotal: Option<real>,
    tax: Option<real>,
    total: Option<real>)

  /**
   * The store's answer to the writes whose failure the handler checks: the
   * error text of a rejected customer insert, invoice insert, or item insert
   * (keyed by the position of the cart line).
   */
  datatype StoreFaults = StoreFaults(
    customerInsert: Option<string>,
    invoiceInsert: Option<string>,
    itemInsert: map<nat, string>)

  function NoFaults(): StoreFaults {
    StoreFaults(None, None, map[])
  }

  datatype SaleError =
    | MissingFields
    | CartEmpty
    | CustomerWriteFailed(detail: string)
    | InvoiceWriteFailed(detail: string)
    | ProductNotFound(item: string)
    | InsufficientStock(item: string)
    | ItemWriteFailed(detail: string)

  /** The `message` the handler answers with. */
  function Message(e: SaleError): string {
    match e
    case MissingFields => "Missing required fields"
    case CartEmpty => "Cart is empty"
    case CustomerWriteFailed(d) => "Failed to create customer: " + d
    case InvoiceWriteFailed(d) => "Failed to save invoice: " + d
    case ProductNotFound(item) => "Product not found: " + item
    case InsufficientStock(item) => "Insufficient stock for " + item
    case ItemWriteFailed(d) => "Failed to save invoice item: " + d
  }

  /** What a successful call answers: `invoice_number`, `invoice_id`, `customer_id`. */
  datatype Receipt = Receipt(number: string, invoiceId: nat, customerId: nat)

  datatype SaleOutcome = Saved(receipt: Receipt, after: Tables) | Failed(error: SaleError)

  /** `validateInput` over the seven required keys. */
  predicate HasRequiredFields(req: SaleRequest) {
    && req.customerName.Some?
    && req.customerPhone.Some?
    && req.paymentMethod.Some?
    && req.items.Some?
    && req.subtotal.Some?
    && req.tax.Some?
    && req.total.Some?
  }

  /** The item row of a line; its total is computed here, not taken from the client. */
  function ItemRow(invoiceId: nat, line: Line): InvoiceItem {
    InvoiceItem(invoiceId, line.id, line.name, line.category, line.quantity, line.price,
                line.price * (line.quantity as real))
  }

  function SaleNote(number: string): string {
    "Sold via invoice " + number
  }

  /** The ledger entry of a sold line. */
  function SaleEntry(invoiceId: nat, number: string, line: Line): StockEntry {
    StockEntry(line.id, -line.quantity, Sale, Some(invoiceId), SaleNote(number))
  }

  /** The customer the invoice is charged to, and the tables after the upsert. */
  datatype CustomerRef = CustomerRef(id: nat, tables: Tables)

  /** Step 1: update the customer with this phone, or insert a new one. */
  function UpsertCustomer(t: Tables, name: string, phone: string, email: Option<string>, total: real,
                          fault: Option<string>): Result<CustomerRef, SaleError>
  {
    if phone in t.customers then
      var c := t.customers[phone];
      Ok(CustomerRef(c.id, t.(customers := t.customers[phone := c.(name := name, purchases := c.purchases + 1,
                                                                    spent := c.spent + total)])))
    else if fault.Some? then
      Err(CustomerWriteFailed(fault.value))
    else
      var id := t.nextCustomerId;
      Ok(CustomerRef(id, t.(customers := t.customers[phone := Customer(id, name, phone, email, 1, total)],
                            nextCustomerId := id + 1)))
  }

  /** The tables right after the invoice row is inserted, and the receipt to answer with. */
  datatype Opened = Opened(receipt: Receipt, tables: Tables)

  /** Steps 1 to 3: customer, invoice number, invoice row. */
  function OpenInvoice(t: Tables, req: SaleRequest, year: nat, faults: StoreFaults): Result<Opened, SaleError>
    requires HasRequiredFields(req)
  {
    match UpsertCustomer(t, req.customerName.value, req.customerPhone.value, req.email, req.total.value,
                         faults.customerInsert)
    case Err(e) => Err(e)
    case Ok(c) =>
      var t1 := c.tables;
      var number := InvoiceNumber.Allocate(t1.invoices, year);
      if faults.invoiceInsert.Some? then Err(InvoiceWriteFailed(faults.invoiceInsert.value))
      else
        var id := t1.nextInvoiceId;
        var row := Invoice(id, number, c.id, req.customerName.value, req.customerPhone.value,
                           req.paymentMethod.value, req.subtotal.value, req.tax.value, req.total.value);
        Ok(Opened(Receipt(number, id, c.id), t1.(invoices := t1.invoices + [row], nextInvoiceId := id + 1)))
  }

  function FaultAt(faults: map<nat, string>, i: nat): Option<string> {
    if i in faults then Some(faults[i]) else None
  }

  /** One pass of the item loop: stock check, item row, stock decrement, ledger entry. */
  function SellLine(t: Tables, line: Line, invoiceId: nat, number: string, fault: Option<string>)
    : Result<Tables, SaleError>
  {
    if line.id !in t.products then Err(ProductNotFound(line.name))
    else if t.products[line.id].stock < line.quantity then Err(InsufficientStock(line.name))
    else if fault.Some? then Err(ItemWriteFailed(fault.value))
    else
      var p := t.products[line.id];
      Ok(t.(items := t.items + [ItemRow(invoiceId, line)],
            products := t.products[line.id := p.(stock := p.stock - line.quantity)],
            history := t.history + [SaleEntry(invoiceId, number, line)]))
  }

  /** The item loop from line `i` on, stopping at the first line that fails. */
  function SellLines(t: Tables, lines: seq<Line>, i: nat, invoiceId: nat, number: string,
                     faults: map<nat, string>): Result<Tables, SaleError>
    requires i <= |lines|
    decreases |lines| - i
  {
    if i == |lines| then Ok(t)
    else
      match SellLine(t, lines[i], invoiceId, number, FaultAt(faults, i))
      case Err(e) => Err(e)
      case Ok(t1) => SellLines(t1, lines, i + 1, invoiceId, number, faults)
  }

  /** The whole handler, from the database before the call to the committed or rolled-back outcome. */
  function Transaction(t: Tables, req: SaleRequest, year: nat, faults: StoreFaults): SaleOutcome {
    if !HasRequiredFields(req) then Failed(MissingFields)
    else if req.items.value == [] then Failed(CartEmpty)
    else
      match OpenInvoice(t, req, year, faults)
      case Err(e) => Failed(e)
      case Ok(o) =>
        match SellLines(o.tables, req.items.value, 0, o.receipt.invoiceId, o.receipt.number, faults.itemInsert)
        case Err(e) => Failed(e)
        case Ok(t2) => Saved(o.receipt, t2)
  }

  // ---------------------------------------------------------------------------
  // The item loop
  // ---------------------------------------------------------------------------

  /** The quantity that lines `i` up to (not including) `j` take from product `p`. */
  function Sold(lines: seq<Line>, i: nat, j: nat, p: int): int
    requires i <= j <= |lines|
    decreases j - i
  {
    if i == j then 0 else (if lines[i].id == p then lines[i].quantity else 0) + Sold(lines, i + 1, j, p)
  }

  lemma {:induction false} SoldUnmentioned(lines: seq<Line>, i: nat, j: nat, p: int)
    requires i <= j <= |lines|
    requires forall k | i <= k < j :: lines[k].id != p
    ensures Sold(lines, i, j, p) == 0
    decreases j - i
  {
    if i < j {
      SoldUnmentioned(lines, i + 1, j, p);
    }
  }

  /**
   * Line `k` passes the stock check when the loop is started at line `i`
   * with `products`: its product exists, and what is left of it after the
   * earlier lines covers its quantity.
   */
  predicate Fits(products: map<int, Product>, lines: seq<Line>, i: nat, k: nat)
    requires i <= k < |lines|
  {
    lines[k].id in products && products[lines[k].id].stock - Sold(lines, i, k, lines[k].id) >= lines[k].quantity
  }

  /** The error that line `k` raises when it is the first line to fail. */
  function LineError(products: map<int, Product>, lines: seq<Line>, i: nat, k: nat, faults: map<nat, string>)
    : SaleError
    requires i <= k < |lines|
  {
    var line := lines[k];
    if line.id !in products then ProductNotFound(line.name)
    else if products[line.id].stock - Sold(lines, i, k, line.id) < line.quantity then InsufficientStock(line.name)
    else ItemWriteFailed(if k in faults then faults[k] else "")
  }

  /** After line `i` is sold, the later lines see the same remaining stock as before. */
  lemma {:induction false} ShiftPastLine(t: Tables, lines: seq<Line>, i: nat, invoiceId: nat, number: string,
                      faults: map<nat, string>, t1: Tables)
    requires i < |lines|
    requires SellLine(t, lines[i], invoiceId, number, FaultAt(faults, i)) == Ok(t1)
    ensures Fits(t.products, lines, i, i) && i !in faults
    ensures forall k | i < k < |lines| :: Fits(t1.products, lines, i + 1, k) == Fits(t.products, lines, i, k)
    ensures forall k | i < k < |lines| ::
              LineError(t1.products, lines, i + 1, k, faults) == LineError(t.products, lines, i, k, faults)
  {
    forall k | i < k < |lines|
      ensures Fits(t1.products, lines, i + 1, k) == Fits(t.products, lines, i, k)
      ensures LineError(t1.products, lines, i + 1, k, faults) == LineError(t.products, lines, i, k, faults)
    {
      assert Sold(lines, i, k, lines[k].id) ==
             (if lines[i].id == lines[k].id then lines[i].quantity else 0) + Sold(lines, i + 1, k, lines[k].id);
    }
  }

  /** The loop commits exactly when every line passes its stock check and its item insert. */
  lemma {:induction false} SellLinesSucceedsIff(t: Tables, lines: seq<Line>, i: nat, invoiceId: nat,
                                                number: string, faults: map<nat, string>)
    requires i <= |lines|
    ensures SellLines(t, lines, i, invoiceId, number, faults).Ok? <==>
            forall k | i <= k < |lines| :: Fits(t.products, lines, i, k) && k !in faults
    decreases |lines| - i
  {
    if i < |lines| {
      match SellLine(t, lines[i], invoiceId, number, FaultAt(faults, i))
      case Err(_) =>
        assert !(Fits(t.products, lines, i, i) && i !in faults);
      case Ok(t1) =>
        ShiftPastLine(t, lines, i, invoiceId, number, faults, t1);
        var next := i + 1;
        SellLinesSucceedsIff(t1, lines, next, invoiceId, number, faults);
        if forall k | next <= k < |lines| :: Fits(t1.products, lines, next, k) && k !in faults {
          forall k | i <= k < |lines| ensures Fits(t.products, lines, i, k) && k !in faults {
            if k > i {
              assert Fits(t1.products, lines, next, k);
            }
          }
        } else {
          var k :| next <= k < |lines| && !(Fits(t1.products, lines, next, k) && k !in faults);
          assert !(Fits(t.products, lines, i, k) && k !in faults);
        }
    }
  }

  /** The first line that fails decides the error, which names that line's item. */
  lemma {:induction false} SellLinesFirstFailure(t: Tables, lines: seq<Line>, i: nat, invoiceId: nat,
                                                 number: string, faults: map<nat, string>, k: nat)
    requires i <= k < |lines|
    requires forall j | i <= j < k :: Fits(t.products, lines, i, j) && j !in faults
    requires !(Fits(t.products, lines, i, k) && k !in faults)
    ensures SellLines(t, lines, i, invoiceId, number, faults) == Err(LineError(t.products, lines, i, k, faults))
    decreases |lines| - i
  {
    if k == i {
      assert Sold(lines, i, i, lines[i].id) == 0;
    } else {
      assert Fits(t.products, lines, i, i) && i !in faults;
      assert Sold(lines, i, i, lines[i].id) == 0;
      var t1 := SellLine(t, lines[i], invoiceId, number, FaultAt(faults, i)).value;
      ShiftPastLine(t, lines, i, invoiceId, number, faults, t1);
      var next := i + 1;
      forall j | next <= j < k ensures Fits(t1.products, lines, next, j) && j !in faults {
        assert Fits(t.products, lines, i, j);
      }
      SellLinesFirstFailure(t1, lines, next, invoiceId, number, faults, k);
    }
  }

  /** The loop leaves customers and invoices alone and appends one item row and one `SALE` entry per line. */
  lemma {:induction false} SellLinesRows(t: Tables, lines: seq<Line>, i: nat, invoiceId: nat, number: string,
                                         faults: map<nat, string>, t2: Tables)
    requires i <= |lines|
    requires SellLines(t, lines, i, invoiceId, number, faults) == Ok(t2)
    ensures t2.customers == t.customers && t2.nextCustomerId == t.nextCustomerId
    ensures t2.invoices == t.invoices && t2.nextInvoiceId == t.nextInvoiceId
    ensures t2.nextProductId == t.nextProductId && t2.products.Keys == t.products.Keys
    ensures |t2.items| == |t.items| + (|lines| - i) && t2.items[..|t.items|] == t.items
    ensures |t2.history| == |t.history| + (|lines| - i) && t2.history[..|t.history|] == t.history
    ensures forall k | i <= k < |lines| :: t2.items[|t.items| + (k - i)] == ItemRow(invoiceId, lines[k])
    ensures forall k | i <= k < |lines| :: t2.history[|t.history| + (k - i)] == SaleEntry(invoiceId, number, lines[k])
    decreases |lines| - i
  {
    if i < |lines| {
      var t1 := SellLine(t, lines[i], invoiceId, number, FaultAt(faults, i)).value;
      var next := i + 1;
      assert t1.items == t.items + [ItemRow(invoiceId, lines[i])];
      assert t1.history == t.history + [SaleEntry(invoiceId, number, lines[i])];
      SellLinesRows(t1, lines, next, invoiceId, number, faults, t2);
      assert t2.items[..|t1.items|][..|t.items|] == t2.items[..|t.items|];
      assert t2.history[..|t1.history|][..|t.history|] == t2.history[..|t.history|];
      forall k | i <= k < |lines|
        ensures t2.items[|t.items| + (k - i)] == ItemRow(invoiceId, lines[k])
        ensures t2.history[|t.history| + (k - i)] == SaleEntry(invoiceId, number, lines[k])
      {
        if k == i {
          assert t2.items[|t.items|] == t1.items[|t.items|];
          assert t2.history[|t.history|] == t1.history[|t.history|];
        } else {
          assert |t.items| + (k - i) == |t1.items| + (k - next);
          assert |t.history| + (k - i) == |t1.history| + (k - next);
        }
      }
    } else {
      assert t2 == t;
    }
  }

  /** Each product loses exactly what the lines from `i` on sell of it; nothing else about it changes. */
  lemma {:induction false} SellLinesStock(t: Tables, lines: seq<Line>, i: nat, invoiceId: nat, number: string,
                                          faults: map<nat, string>, t2: Tables)
    requires i <= |lines|
    requires SellLines(t, lines, i, invoiceId, number, faults) == Ok(t2)
    ensures t2.products.Keys == t.products.Keys
    ensures forall p | p in t.products ::
              t2.products[p] == t.products[p].(stock := t.products[p].stock - Sold(lines, i, |lines|, p))
    decreases |lines| - i
  {
    if i < |lines| {
      var t1 := SellLine(t, lines[i], invoiceId, number, FaultAt(faults, i)).value;
      SellLinesStock(t1, lines, i + 1, invoiceId, number, faults, t2);
    }
  }

  /** Every product a line from `i` on names ends with a stock of at least zero. */
  lemma {:induction false} SellLinesNonNegative(t: Tables, lines: seq<Line>, i: nat, invoiceId: nat,
                                                number: string, faults: map<nat, string>, t2: Tables)
    requires i <= |lines|
    requires SellLines(t, lines, i, invoiceId, number, faults) == Ok(t2)
    ensures forall k | i <= k < |lines| :: lines[k].id in t2.products && t2.products[lines[k].id].stock >= 0
    decreases |lines| - i
  {
    if i < |lines| {
      var t1 := SellLine(t, lines[i], invoiceId, number, FaultAt(faults, i)).value;
      SellLinesNonNegative(t1, lines, i + 1, invoiceId, number, faults, t2);
      var p := lines[i].id;
      if forall k | i < k < |lines| :: lines[k].id != p {
        SoldUnmentioned(lines, i + 1, |lines|, p);
        SellLinesStock(t1, lines, i + 1, invoiceId, number, faults, t2);
      }
    }
  }

  /** One sold line keeps the database consistent, the ledger reconciled included. */
  lemma {:induction false} SellLineConsistent(t: Tables, line: Line, invoiceId: nat, number: string, fault: Option<string>, t1: Tables)
    requires Consistent(t)
    requires SellLine(t, line, invoiceId, number, fault) == Ok(t1)
    ensures Consistent(t1)
  {
    var h := t1.history;
    assert h[..|h| - 1] == t.history;
    forall p | p in t1.products
      ensures LedgerSum(t1.history, p) == t1.products[p].stock
    {
      assert LedgerSum(t1.history, p) == LedgerSum(t.history, p) + (if line.id == p then -line.quantity else 0);
    }
  }

  lemma {:induction false} SellLinesConsistent(t: Tables, lines: seq<Line>, i: nat, invoiceId: nat,
                                               number: string, faults: map<nat, string>, t2: Tables)
    requires i <= |lines|
    requires Consistent(t)
    requires SellLines(t, lines, i, invoiceId, number, faults) == Ok(t2)
    ensures Consistent(t2)
    decreases |lines| - i
  {
    if i < |lines| {
      var t1 := SellLine(t, lines[i], invoiceId, number, FaultAt(faults, i)).value;
      SellLineConsistent(t, lines[i], invoiceId, number, FaultAt(faults, i), t1);
      SellLinesConsistent(t1, lines, i + 1, invoiceId, number, faults, t2);
    }
  }

  // ---------------------------------------------------------------------------
  // The whole transaction
  // ---------------------------------------------------------------------------

  /** A request without a required field, or with an empty cart, fails before the store is touched. */
  lemma {:induction false} RejectsIncompleteRequest(t: Tables, req: SaleRequest, year: nat, faults: StoreFaults)
    requires !HasRequiredFields(req) || req.items.value == []
    ensures Transaction(t, req, year, faults).Failed?
    ensures Transaction(t, req, year, faults).error == (if HasRequiredFields(req) then CartEmpty else MissingFields)
  {
  }

  /** What steps 1 to 3 write: the customer, then the invoice row with the next number of the year. */
  lemma {:induction false} OpenInvoiceWrites(t: Tables, req: SaleRequest, year: nat, faults: StoreFaults, o: Opened)
    requires HasRequiredFields(req)
    requires OpenInvoice(t, req, year, faults) == Ok(o)
    ensures o.tables.products == t.products && o.tables.nextProductId == t.nextProductId
    ensures o.tables.items == t.items && o.tables.history == t.history
    ensures var phone := req.customerPhone.value;
            if phone in t.customers then
              var c := t.customers[phone];
              && o.receipt.customerId == c.id
              && o.tables.customers == t.customers[phone := c.(name := req.customerName.value,
                                                               purchases := c.purchases + 1,
                                                               spent := c.spent + req.total.value)]
              && o.tables.nextCustomerId == t.nextCustomerId
            else
              && o.receipt.customerId == t.nextCustomerId
              && o.tables.customers == t.customers[phone := Customer(t.nextCustomerId, req.customerName.value, phone,
                                                                     req.email, 1, req.total.value)]
              && o.tables.nextCustomerId == t.nextCustomerId + 1
    ensures o.receipt.number == InvoiceNumber.Allocate(t.invoices, year)
    ensures o.receipt.invoiceId == t.nextInvoiceId && o.tables.nextInvoiceId == t.nextInvoiceId + 1
    ensures o.tables.invoices == t.invoices + [Invoice(o.receipt.invoiceId, o.receipt.number, o.receipt.customerId,
                                                       req.customerName.value, req.customerPhone.value,
                                                       req.paymentMethod.value, req.subtotal.value, req.tax.value,
                                                       req.total.value)]
  {
    var c := UpsertCustomer(t, req.customerName.value, req.customerPhone.value, req.email, req.total.value,
                            faults.customerInsert).value;
    assert o.tables == c.tables.(invoices := c.tables.invoices + [o.tables.invoices[|t.invoices|]],
                                 nextInvoiceId := c.tables.nextInvoiceId + 1);
    if req.customerPhone.value in t.customers {
      assert c.tables == t.(customers := c.tables.customers);
    } else {
      assert c.tables == t.(customers := c.tables.customers, nextCustomerId := t.nextCustomerId + 1);
    }
  }

  /** Steps 1 to 3 keep the database consistent. */
  lemma {:induction false} OpenInvoiceConsistent(t: Tables, req: SaleRequest, year: nat, faults: StoreFaults, o: Opened)
    requires Consistent(t)
    requires HasRequiredFields(req)
    requires OpenInvoice(t, req, year, faults) == Ok(o)
    ensures Consistent(o.tables)
  {
    OpenInvoiceWrites(t, req, year, faults, o);
    var inv := o.tables.invoices;
    assert forall k | 0 <= k < |inv| - 1 :: inv[k] == t.invoices[k];
  }

  /** The sale is saved exactly when no line and no checked write fails. */
  lemma {:induction false} SavedIff(t: Tables, req: SaleRequest, year: nat, faults: StoreFaults)
    ensures Transaction(t, req, year, faults).Saved? <==>
            && HasRequiredFields(req)
            && req.items.value != []
            && (req.customerPhone.value in t.customers || faults.customerInsert.None?)
            && faults.invoiceInsert.None?
            && forall k | 0 <= k < |req.items.value| ::
                 Fits(t.products, req.items.value, 0, k) && k !in faults.itemInsert
  {
    if HasRequiredFields(req) && req.items.value != [] {
      match OpenInvoice(t, req, year, faults)
      case Err(_) =>
      case Ok(o) =>
        OpenInvoiceWrites(t, req, year, faults, o);
        SellLinesSucceedsIff(o.tables, req.items.value, 0, o.receipt.invoiceId, o.receipt.number, faults.itemInsert);
    }
  }

  /**
   * When line `k` is the first to fail, the sale fails with that line's error:
   * an unknown product or too little stock names the line's item.
   */
  lemma {:induction false} FailsAtFirstBadLine(t: Tables, req: SaleRequest, year: nat, faults: StoreFaults, k: nat)
    requires HasRequiredFields(req) && OpenInvoice(t, req, year, faults).Ok?
    requires k < |req.items.value|
    requires forall j | 0 <= j < k :: Fits(t.products, req.items.value, 0, j) && j !in faults.itemInsert
    requires !(Fits(t.products, req.items.value, 0, k) && k !in faults.itemInsert)
    ensures Transaction(t, req, year, faults) == Failed(LineError(t.products, req.items.value, 0, k, faults.itemInsert))
  {
    var o := OpenInvoice(t, req, year, faults).value;
    OpenInvoiceWrites(t, req, year, faults, o);
    SellLinesFirstFailure(o.tables, req.items.value, 0, o.receipt.invoiceId, o.receipt.number, faults.itemInsert, k);
  }

  /** A saved sale takes from each product the sum of its lines' quantities and leaves none below zero. */
  lemma {:induction false} SavedStock(t: Tables, req: SaleRequest, year: nat, faults: StoreFaults)
    requires Transaction(t, req, year, faults).Saved?
    ensures var after := Transaction(t, req, year, faults).after;
            var lines := req.items.value;
            && after.products.Keys == t.products.Keys
            && (forall p | p in t.products ::
                  after.products[p] == t.products[p].(stock := t.products[p].stock - Sold(lines, 0, |lines|, p)))
            && (forall k | 0 <= k < |lines| :: lines[k].id in after.products && after.products[lines[k].id].stock >= 0)
            && (forall p | p in t.products && (forall k | 0 <= k < |lines| :: lines[k].id != p) ::
                  after.products[p] == t.products[p])
  {
    var o := OpenInvoice(t, req, year, faults).value;
    var lines := req.items.value;
    OpenInvoiceWrites(t, req, year, faults, o);
    var after := Transaction(t, req, year, faults).after;
    SellLinesStock(o.tables, lines, 0, o.receipt.invoiceId, o.receipt.number, faults.itemInsert, after);
    SellLinesNonNegative(o.tables, lines, 0, o.receipt.invoiceId, o.receipt.number, faults.itemInsert, after);
    forall p | p in t.products && (forall k | 0 <= k < |lines| :: lines[k].id != p)
      ensures after.products[p] == t.products[p]
    {
      SoldUnmentioned(lines, 0, |lines|, p);
    }
  }

  /**
   * A saved sale is steps 1 to 3 followed by an item loop that succeeds; steps
   * 1 to 3 leave the item rows and the ledger as they were.
   */
  lemma {:induction false} SavedSteps(t: Tables, req: SaleRequest, year: nat, faults: StoreFaults) returns (o: Opened)
    requires Transaction(t, req, year, faults).Saved?
    ensures HasRequiredFields(req) && OpenInvoice(t, req, year, faults) == Ok(o)
    ensures Transaction(t, req, year, faults).receipt == o.receipt
    ensures SellLines(o.tables, req.items.value, 0, o.receipt.invoiceId, o.receipt.number, faults.itemInsert)
            == Ok(Transaction(t, req, year, faults).after)
    ensures o.tables.items == t.items && o.tables.history == t.history
  {
    o := OpenInvoice(t, req, year, faults).value;
    OpenInvoiceWrites(t, req, year, faults, o);
  }

  /** A saved sale appends one item row and one `SALE` entry per line, in cart order. */
  lemma {:induction false} SavedRows(t: Tables, req: SaleRequest, year: nat, faults: StoreFaults)
    requires Transaction(t, req, year, faults).Saved?
    ensures var Saved(r, after) := Transaction(t, req, year, faults);
            var lines := req.items.value;
            && |after.items| == |t.items| + |lines| && after.items[..|t.items|] == t.items
            && |after.history| == |t.history| + |lines| && after.history[..|t.history|] == t.history
            && (forall k | 0 <= k < |lines| :: after.items[|t.items| + k] == ItemRow(r.invoiceId, lines[k]))
            && (forall k | 0 <= k < |lines| ::
                  after.history[|t.history| + k] == SaleEntry(r.invoiceId, r.number, lines[k]))
  {
    var o := SavedSteps(t, req, year, faults);
    var Saved(r, after) := Transaction(t, req, year, faults);
    LoopRows(t, o.tables, req.items.value, r, faults.itemInsert, after);
  }

  /** The rows of a successful item loop run on tables whose item rows and ledger are those of `t`. */
  lemma {:induction false} LoopRows(t: Tables, t1: Tables, lines: seq<Line>, r: Receipt, faults: map<nat, string>, after: Tables)
    requires t1.items == t.items && t1.history == t.history
    requires SellLines(t1, lines, 0, r.invoiceId, r.number, faults) == Ok(after)
    ensures && |after.items| == |t.items| + |lines| && after.items[..|t.items|] == t.items
            && |after.history| == |t.history| + |lines| && after.history[..|t.history|] == t.history
            && (forall k | 0 <= k < |lines| :: after.items[|t.items| + k] == ItemRow(r.invoiceId, lines[k]))
            && (forall k | 0 <= k < |lines| ::
                  after.history[|t.history| + k] == SaleEntry(r.invoiceId, r.number, lines[k]))
  {
    SellLinesRows(t1, lines, 0, r.invoiceId, r.number, faults, after);
    forall k | 0 <= k < |lines|
      ensures after.items[|t.items| + k] == ItemRow(r.invoiceId, lines[k])
      ensures after.history[|t.history| + k] == SaleEntry(r.invoiceId, r.number, lines[k])
    {
      assert k - 0 == k;
    }
  }

  /**
   * A saved sale appends one invoice row carrying the next number of the year,
   * and answers with the number, invoice id and customer id it wrote.
   */
  lemma {:induction false} SavedReceipt(t: Tables, req: SaleRequest, year: nat, faults: StoreFaults)
    requires Transaction(t, req, year, faults).Saved?
    ensures var Saved(r, after) := Transaction(t, req, year, faults);
            && r.number == InvoiceNumber.Allocate(t.invoices, year)
            && r.invoiceId == t.nextInvoiceId && after.nextInvoiceId == t.nextInvoiceId + 1
            && after.invoices == t.invoices + [Invoice(r.invoiceId, r.number, r.customerId, req.customerName.value,
                                                       req.customerPhone.value, req.paymentMethod.value,
                                                       req.subtotal.value, req.tax.value, req.total.value)]
            && req.customerPhone.value in after.customers
            && after.customers[req.customerPhone.value].id == r.customerId
  {
    var o := OpenInvoice(t, req, year, faults).value;
    OpenInvoiceWrites(t, req, year, faults, o);
    SellLinesRows(o.tables, req.items.value, 0, o.receipt.invoiceId, o.receipt.number, faults.itemInsert,
                  Transaction(t, req, year, faults).after);
  }

  /** A saved sale upserts exactly the customer with the request's phone. */
  lemma {:induction false} SavedCustomer(t: Tables, req: SaleRequest, year: nat, faults: StoreFaults)
    requires Transaction(t, req, year, faults).Saved?
    ensures var after := Transaction(t, req, year, faults).after;
            var phone := req.customerPhone.value;
            if phone in t.customers then
              var c := t.customers[phone];
              && after.customers == t.customers[phone := c.(name := req.customerName.value,
                                                            purchases := c.purchases + 1,
                                                            spent := c.spent + req.total.value)]
              && after.nextCustomerId == t.nextCustomerId
            else
              && after.customers == t.customers[phone := Customer(t.nextCustomerId, req.customerName.value, phone,
                                                                  req.email, 1, req.total.value)]
              && after.nextCustomerId == t.nextCustomerId + 1
  {
    var o := OpenInvoice(t, req, year, faults).value;
    OpenInvoiceWrites(t, req, year, faults, o);
    SellLinesRows(o.tables, req.items.value, 0, o.receipt.invoiceId, o.receipt.number, faults.itemInsert,
                  Transaction(t, req, year, faults).after);
  }

  /** A saved sale keeps the database consistent; in particular every product's ledger still sums to its stock. */
  lemma {:induction false} SavedConsistent(t: Tables, req: SaleRequest, year: nat, faults: StoreFaults)
    requires Consistent(t)
    requires Transaction(t, req, year, faults).Saved?
    ensures Consistent(Transaction(t, req, year, faults).after)
  {
    var o := OpenInvoice(t, req, year, faults).value;
    OpenInvoiceConsistent(t, req, year, faults, o);
    SellLinesConsistent(o.tables, req.items.value, 0, o.receipt.invoiceId, o.receipt.number, faults.itemInsert,
                        Transaction(t, req, year, faults).after);
  }

  /**
   * Two saved sales to a phone the store did not know: one customer row,
   * two purchases, the second name, and both totals spent.
   */
  lemma {:induction false} ReturningCustomer(t: Tables, first: SaleRequest, second: SaleRequest, year: nat,
                          faults1: StoreFaults, faults2: StoreFaults)
    requires Transaction(t, first, year, faults1).Saved?
    requires Transaction(Transaction(t, first, year, faults1).after, second, year, faults2).Saved?
    requires first.customerPhone == second.customerPhone && first.customerPhone.value !in t.customers
    ensures var t1 := Transaction(t, first, year, faults1).after;
            var t2 := Transaction(t1, second, year, faults2).after;
            var phone := first.customerPhone.value;
            && t2.customers.Keys == t.customers.Keys + {phone}
            && t2.customers[phone].id == t.nextCustomerId
            && t2.customers[phone].name == second.customerName.value
            && t2.customers[phone].purchases == 2
            && t2.customers[phone].spent == first.total.value + second.total.value
            && t2.customers[phone].email == first.email
  {
    var t1 := Transaction(t, first, year, faults1).after;
    SavedCustomer(t, first, year, faults1);
    SavedCustomer(t1, second, year, faults2);
  }
}
