/**
 * The database connection the endpoints write through: one mutable field per
 * table and per auto-increment counter. Each endpoint is a method that writes
 * step by step, in the order the PHP issues its statements, and is proved to
 * leave exactly the state its specification function describes.
 */
module Database {
  import opened Common
  import opened Schema
  import opened Sales
  import opened ProductAdmin
  import InvoiceNumber

  class Store {
    var customers: map<string, Customer>
    var nextCustomerId: nat
    var products: map<int, Product>
    var nextProductId: int
    var invoices: seq<Invoice>
    var nextInvoiceId: nat
    var items: seq<InvoiceItem>
    var history: seq<StockEntry>

    /** The contents of every table, as a value. */
    function Snapshot(): Tables
      reads this
    {
      Tables(customers, nextCustomerId, products, nextProductId, invoices, nextInvoiceId, items, history)
    }

    /** A fresh, empty database. */
    constructor ()
      ensures Snapshot() == EmptyTables()
      ensures Consistent(Snapshot())
    {
      customers := map[];
      nextCustomerId := 1;
      products := map[];
      nextProductId := 1;
      invoices := [];
      nextInvoiceId := 1;
      items := [];
      history := [];
    }

    /** `rollback()`: put every table back as it was when the transaction began. */
    method Rollback(begin: Tables)
      modifies this
      ensures Snapshot() == begin
    {
      customers := begin.customers;
      nextCustomerId := begin.nextCustomerId;
      products := begin.products;
      nextProductId := begin.nextProductId;
      invoices := begin.invoices;
      nextInvoiceId := begin.nextInvoiceId;
      items := begin.items;
      history := begin.history;
    }

    /**
     * Steps 1 to 3 of the sale: upsert the customer, allocate the number and
     * insert the invoice row. A failed write leaves partial work behind, which
     * the caller rolls back.
     */
    method OpenInvoiceRows(req: SaleRequest, year: nat, faults: StoreFaults) returns (o: Result<Opened, SaleError>)
      requires HasRequiredFields(req)
      modifies this
      ensures o == OpenInvoice(old(Snapshot()), req, year, faults)
      ensures o.Ok? ==> Snapshot() == o.value.tables
    {
      ghost var start := Snapshot();
      var phone := req.customerPhone.value;
      var customerId: nat;
      if phone in customers {
        var c := customers[phone];
        customerId := c.id;
        customers := customers[phone := c.(name := req.customerName.value, purchases := c.purchases + 1,
                                           spent := c.spent + req.total.value)];
      } else {
        if faults.customerInsert.Some? {
          return Err(CustomerWriteFailed(faults.customerInsert.value));
        }
        customerId := nextCustomerId;
        customers := customers[phone := Customer(customerId, req.customerName.value, phone, req.email, 1,
                                                 req.total.value)];
        nextCustomerId := nextCustomerId + 1;
      }
      assert UpsertCustomer(start, req.customerName.value, phone, req.email, req.total.value, faults.customerInsert)
             == Ok(CustomerRef(customerId, Snapshot()));
      var number := InvoiceNumber.Allocate(invoices, year);
      if faults.invoiceInsert.Some? {
        return Err(InvoiceWriteFailed(faults.invoiceInsert.value));
      }
      var invoiceId := nextInvoiceId;
      invoices := invoices + [Invoice(invoiceId, number, customerId, req.customerName.value, phone,
                                      req.paymentMethod.value, req.subtotal.value, req.tax.value, req.total.value)];
      nextInvoiceId := nextInvoiceId + 1;
      o := Ok(Opened(Receipt(number, invoiceId, customerId), Snapshot()));
    }

    /**
     * Step 5 of the sale: for each line, re-read the stock, insert the item,
     * decrement the stock and log the `SALE` entry; stop at the first line
     * that fails.
     */
    method SellAllLines(lines: seq<Line>, invoiceId: nat, number: string, itemFaults: map<nat, string>)
      returns (e: Option<SaleError>)
      modifies this
      ensures match SellLines(old(Snapshot()), lines, 0, invoiceId, number, itemFaults)
              case Ok(after) => e == None && Snapshot() == after
              case Err(error) => e == Some(error)
    {
      ghost var start := Snapshot();
      var i := 0;
      while i < |lines|
        invariant 0 <= i <= |lines|
        invariant SellLines(start, lines, 0, invoiceId, number, itemFaults) ==
                  SellLines(Snapshot(), lines, i, invoiceId, number, itemFaults)
        decreases |lines| - i
      {
        var line := lines[i];
        if line.id !in products {
          return Some(ProductNotFound(line.name));
        }
        if products[line.id].stock < line.quantity {
          return Some(InsufficientStock(line.name));
        }
        if i in itemFaults {
          return Some(ItemWriteFailed(itemFaults[i]));
        }
        items := items + [ItemRow(invoiceId, line)];
        var p := products[line.id];
        products := products[line.id := p.(stock := p.stock - line.quantity)];
        history := history + [SaleEntry(invoiceId, number, line)];
        i := i + 1;
      }
      e := None;
    }

    /**
     * `save_invoice.php`: the sale transaction. On success every write is
     * kept and the receipt is returned; on any failure the store is exactly
     * as it was before the call.
     */
    method SaveInvoice(req: SaleRequest, year: nat, faults: StoreFaults) returns (r: Result<Receipt, string>)
      modifies this
      ensures match Transaction(old(Snapshot()), req, year, faults)
              case Saved(receipt, after) => r == Ok(receipt) && Snapshot() == after
              case Failed(e) => r == Err(Message(e)) && Snapshot() == old(Snapshot())
      ensures Consistent(old(Snapshot())) ==> Consistent(Snapshot())
    {
      if !HasRequiredFields(req) {
        return Err(Message(MissingFields));
      }
      if req.items.value == [] {
        return Err(Message(CartEmpty));
      }
      var begin := Snapshot();
      var o := OpenInvoiceRows(req, year, faults);
      if o.Err? {
        Rollback(begin);
        return Err(Message(o.error));
      }
      var receipt := o.value.receipt;
      var e := SellAllLines(req.items.value, receipt.invoiceId, receipt.number, faults.itemInsert);
      if e.Some? {
        Rollback(begin);
        return Err(Message(e.value));
      }
      r := Ok(receipt);
      if Consistent(begin) {
        SavedConsistent(begin, req, year, faults);
      }
    }

    /** `add_product.php`: insert the product, then its `INITIAL` ledger entry. */
    method AddProduct(req: NewProduct, categoryIcon: string -> string, insertFails: bool) returns (r: Result<int, string>)
      modifies this
      ensures match AddOutcome(old(Snapshot()), req, categoryIcon, insertFails)
              case Ok(Added(id, after)) => r == Ok(id) && Snapshot() == after
              case Err(message) => r == Err(message) && Snapshot() == old(Snapshot())
      ensures Consistent(old(Snapshot())) && !insertFails && HasProductFields(req) ==> Consistent(Snapshot())
    {
      if !HasProductFields(req) {
        return Err("Missing required fields");
      }
      var minStock := if req.minStock.Some? then req.minStock.value else DefaultMinStock;
      var icon := if req.icon.Some? then req.icon.value else categoryIcon(req.category.value);
      if insertFails {
        return Err("Failed to add product");
      }
      ghost var before := Snapshot();
      var id := nextProductId;
      products := products[id := Product(req.name.value, req.category.value, req.price.value, req.stock.value,
                                         minStock, icon, true)];
      nextProductId := nextProductId + 1;
      history := history + [InitialEntry(id, req.stock.value)];
      r := Ok(id);
      if Consistent(before) {
        AddConsistent(before, req, categoryIcon);
      }
    }

    /**
     * `update_product.php`: collect the `SET` clauses the request asks for,
     * apply them, and log an `ADJUSTMENT` when the stock changed.
     */
    method UpdateProduct(patch: ProductPatch, updateFails: bool) returns (r: Result<string, string>)
      modifies this
      ensures match UpdateOutcome(old(Snapshot()), patch, updateFails)
              case Ok(after) => r == Ok("Product updated successfully") && Snapshot() == after
              case Err(message) => r == Err(message) && Snapshot() == old(Snapshot())
      ensures Consistent(old(Snapshot())) ==> Consistent(Snapshot())
    {
      if patch.id.None? {
        return Err("Product ID required");
      }
      var id := patch.id.value;
      if id !in products {
        return Err("Product not found");
      }
      ghost var before := Snapshot();
      var current := products[id];
      var oldStock := current.stock;
      var fields: seq<Column> := [];
      if patch.name.Some? {
        fields := fields + [NameColumn];
      }
      if patch.category.Some? {
        fields := fields + [CategoryColumn];
      }
      if patch.price.Some? {
        fields := fields + [PriceColumn];
      }
      if patch.stock.Some? {
        fields := fields + [StockColumn];
      }
      if patch.minStock.Some? {
        fields := fields + [MinStockColumn];
      }
      if patch.icon.Some? {
        fields := fields + [IconColumn];
      }
      if fields == [] {
        return Err("No fields to update");
      }
      if updateFails {
        return Err("Failed to update product");
      }
      products := products[id := Patched(current, patch)];
      if patch.stock.Some? && patch.stock.value != oldStock {
        history := history + [AdjustmentEntry(id, oldStock, patch.stock.value)];
      }
      r := Ok("Product updated successfully");
      if Consistent(before) {
        UpdateConsistent(before, patch);
      }
    }

    /** `delete_product.php`: clear the active flag; the row and its history stay. */
    method DeleteProduct(id: Option<int>, updateFails: bool) returns (r: Result<string, string>)
      modifies this
      ensures match DeleteOutcome(old(Snapshot()), id, updateFails)
              case Ok(after) => r == Ok("Product deleted successfully") && Snapshot() == after
              case Err(message) => r == Err(message) && Snapshot() == old(Snapshot())
      ensures Consistent(old(Snapshot())) ==> Consistent(Snapshot())
    {
      if id.None? {
        return Err("Product ID required");
      }
      if updateFails {
        return Err("Failed to delete product");
      }
      if id.value in products {
        products := products[id.value := products[id.value].(active := false)];
      }
      r := Ok("Product deleted successfully");
    }
  }
}
