/**
 * The product administration endpoints: `add_product.php` inserts a product
 * with its `INITIAL` ledger entry, `update_product.php` patches the fields a
 * request sets and logs an `ADJUSTMENT` when the stock changes, and
 * `delete_product.php` soft-deletes by clearing the active flag. Each is a
 * function of the database before the request; none of them runs in a
 * transaction, and each has at most one checked write.
 */
module ProductAdmin {
  import opened Common
  import opened Schema

  /** `min_stock_level` of a product added without one. */
  const DefaultMinStock: int := 10

  // ---------------------------------------------------------------------------
  // add_product.php
  // ---------------------------------------------------------------------------

  /** The request body of `add_product.php`; an absent or null field is `None`. */
  datatype NewProduct = NewProduct(
    name: Option<string>,
    category: Option<string>,
    price: Option<real>,
    stock: Option<int>,
    minStock: Option<int>,
    icon: Option<string>)

  /** What a successful add answers: the new `product_id`, and the database after it. */
  datatype Added = Added(productId: int, after: Tables)

  predicate HasProductFields(req: NewProduct) {
    req.name.Some? && req.category.Some? && req.price.Some? && req.stock.Some?
  }

  /** The row a valid request inserts; `categoryIcon` stands for the configuration's icon lookup. */
  function NewRow(req: NewProduct, categoryIcon: string -> string): Product
    requires HasProductFields(req)
  {
    Product(req.name.value, req.category.value, req.price.value, req.stock.value,
            req.minStock.GetOr(DefaultMinStock), req.icon.GetOr(categoryIcon(req.category.value)), true)
  }

  /** The ledger entry logged for a new product's opening stock. */
  function InitialEntry(id: int, stock: int): StockEntry {
    StockEntry(id, stock, Initial, None, "Initial stock")
  }

  /** `add_product.php`; `insertFails` is the store rejecting the product insert. */
  function AddOutcome(t: Tables, req: NewProduct, categoryIcon: string -> string, insertFails: bool)
    : Result<Added, string>
  {
    if !HasProductFields(req) then Err("Missing required fields")
    else if insertFails then Err("Failed to add product")
    else
      var id := t.nextProductId;
      Ok(Added(id, t.(products := t.products[id := NewRow(req, categoryIcon)],
                      nextProductId := id + 1,
                      history := t.history + [InitialEntry(id, req.stock.value)])))
  }

  /** An add fails exactly when a required field is missing or the insert is rejected, with that message. */
  lemma {:induction false} AddFailsIff(t: Tables, req: NewProduct, categoryIcon: string -> string, insertFails: bool)
    ensures AddOutcome(t, req, categoryIcon, insertFails).Err? <==> !HasProductFields(req) || insertFails
    ensures !HasProductFields(req) ==> AddOutcome(t, req, categoryIcon, insertFails) == Err("Missing required fields")
  {
  }

  /**
   * A successful add inserts exactly one product under a fresh id, with the
   * defaults for what the request leaves out, and exactly one `INITIAL` entry,
   * so the new product's ledger sums to its stock.
   */
  lemma {:induction false} AddInsertsOneProduct(t: Tables, req: NewProduct, categoryIcon: string -> string)
    requires Consistent(t)
    requires AddOutcome(t, req, categoryIcon, false).Ok?
    ensures var Added(id, after) := AddOutcome(t, req, categoryIcon, false).value;
            && id !in t.products
            && after.products.Keys == t.products.Keys + {id}
            && (forall p | p in t.products :: after.products[p] == t.products[p])
            && after.products[id].name == req.name.value
            && after.products[id].category == req.category.value
            && after.products[id].price == req.price.value
            && after.products[id].stock == req.stock.value
            && after.products[id].minStock == (if req.minStock.Some? then req.minStock.value else DefaultMinStock)
            && after.products[id].icon == (if req.icon.Some? then req.icon.value else categoryIcon(req.category.value))
            && after.products[id].active
            && after.history == t.history + [InitialEntry(id, req.stock.value)]
            && LedgerSum(after.history, id) == req.stock.value
            && id == t.nextProductId && after.nextProductId == id + 1
            && after.customers == t.customers && after.invoices == t.invoices && after.items == t.items
            && after.nextCustomerId == t.nextCustomerId && after.nextInvoiceId == t.nextInvoiceId
  {
    var id := t.nextProductId;
    LedgerSumUnmentioned(t.history, id);
  }

  lemma {:induction false} AddConsistent(t: Tables, req: NewProduct, categoryIcon: string -> string)
    requires Consistent(t)
    requires AddOutcome(t, req, categoryIcon, false).Ok?
    ensures Consistent(AddOutcome(t, req, categoryIcon, false).value.after)
  {
    var Added(id, after) := AddOutcome(t, req, categoryIcon, false).value;
    LedgerSumUnmentioned(t.history, id);
    assert after.history[..|after.history| - 1] == t.history;
    forall p | p in after.products
      ensures LedgerSum(after.history, p) == after.products[p].stock
    {
      if p != id {
        assert LedgerSum(after.history, p) == LedgerSum(t.history, p);
      }
    }
  }

  // ---------------------------------------------------------------------------
  // update_product.php
  // ---------------------------------------------------------------------------

  /** The request body of `update_product.php`; every field but `id` is optional. */
  datatype ProductPatch = ProductPatch(
    id: Option<int>,
    name: Option<string>,
    category: Option<string>,
    price: Option<real>,
    stock: Option<int>,
    minStock: Option<int>,
    icon: Option<string>)

  /** The column of one `SET` clause of the update. */
  datatype Column = NameColumn | CategoryColumn | PriceColumn | StockColumn | MinStockColumn | IconColumn

  /** The request sets at least one updatable field. */
  predicate HasUpdates(patch: ProductPatch) {
    || patch.name.Some? || patch.category.Some? || patch.price.Some?
    || patch.stock.Some? || patch.minStock.Some? || patch.icon.Some?
  }

  /** The product the request describes: each field set by the request replaced, the rest kept. */
  function Patched(p: Product, patch: ProductPatch): Product {
    p.(name := patch.name.GetOr(p.name),
       category := patch.category.GetOr(p.category),
       price := patch.price.GetOr(p.price),
       stock := patch.stock.GetOr(p.stock),
       minStock := patch.minStock.GetOr(p.minStock),
       icon := patch.icon.GetOr(p.icon))
  }

  /** The `ADJUSTMENT` entry of a stock change from `oldStock` to `newStock`. */
  function AdjustmentEntry(id: int, oldStock: int, newStock: int): StockEntry {
    var change := newStock - oldStock;
    StockEntry(id, change, Adjustment, None, if change > 0 then "Stock added" else "Stock removed")
  }

  /** The ledger after an update: one entry when the request sets a different stock, none otherwise. */
  function AdjustedHistory(history: seq<StockEntry>, id: int, oldStock: int, patch: ProductPatch): seq<StockEntry> {
    if patch.stock.Some? && patch.stock.value != oldStock then history + [AdjustmentEntry(id, oldStock, patch.stock.value)]
    else history
  }

  /** `update_product.php`; `updateFails` is the store rejecting the `UPDATE`. */
  function UpdateOutcome(t: Tables, patch: ProductPatch, updateFails: bool): Result<Tables, string> {
    if patch.id.None? then Err("Product ID required")
    else if patch.id.value !in t.products then Err("Product not found")
    else if !HasUpdates(patch) then Err("No fields to update")
    else if updateFails then Err("Failed to update product")
    else
      var id := patch.id.value;
      var p := t.products[id];
      Ok(t.(products := t.products[id := Patched(p, patch)],
            history := AdjustedHistory(t.history, id, p.stock, patch)))
  }

  /** The update is refused, in this order, for a missing id, an unknown id, an empty patch or a failed write. */
  lemma {:induction false} UpdateFailsIff(t: Tables, patch: ProductPatch, updateFails: bool)
    ensures UpdateOutcome(t, patch, updateFails).Err? <==>
            patch.id.None? || patch.id.value !in t.products || !HasUpdates(patch) || updateFails
    ensures patch.id.None? ==> UpdateOutcome(t, patch, updateFails) == Err("Product ID required")
    ensures patch.id.Some? && patch.id.value !in t.products ==>
              UpdateOutcome(t, patch, updateFails) == Err("Product not found")
    ensures patch.id.Some? && patch.id.value in t.products && !HasUpdates(patch) ==>
              UpdateOutcome(t, patch, updateFails) == Err("No fields to update")
  {
  }

  /**
   * A successful update changes only the requested fields of the requested
   * product; every other product and every other table stays as it was.
   */
  lemma {:induction false} UpdateChangesOnlyRequested(t: Tables, patch: ProductPatch)
    requires UpdateOutcome(t, patch, false).Ok?
    ensures var after := UpdateOutcome(t, patch, false).value;
            var id := patch.id.value;
            && after.products.Keys == t.products.Keys
            && (forall q | q in t.products && q != id :: after.products[q] == t.products[q])
            && (patch.name.None? ==> after.products[id].name == t.products[id].name)
            && (patch.name.Some? ==> after.products[id].name == patch.name.value)
            && (patch.category.None? ==> after.products[id].category == t.products[id].category)
            && (patch.category.Some? ==> after.products[id].category == patch.category.value)
            && (patch.price.None? ==> after.products[id].price == t.products[id].price)
            && (patch.price.Some? ==> after.products[id].price == patch.price.value)
            && (patch.stock.None? ==> after.products[id].stock == t.products[id].stock)
            && (patch.stock.Some? ==> after.products[id].stock == patch.stock.value)
            && (patch.minStock.None? ==> after.products[id].minStock == t.products[id].minStock)
            && (patch.minStock.Some? ==> after.products[id].minStock == patch.minStock.value)
            && (patch.icon.None? ==> after.products[id].icon == t.products[id].icon)
            && (patch.icon.Some? ==> after.products[id].icon == patch.icon.value)
            && after.products[id].active == t.products[id].active
            && after.customers == t.customers && after.invoices == t.invoices && after.items == t.items
            && after.nextCustomerId == t.nextCustomerId && after.nextProductId == t.nextProductId
            && after.nextInvoiceId == t.nextInvoiceId
  {
  }

  /**
   * The ledger gains exactly one `ADJUSTMENT` entry, of the difference, when
   * the request sets a stock different from the current one, and nothing
   * otherwise; either way the product's ledger still sums to its stock.
   */
  lemma {:induction false} UpdateLedger(t: Tables, patch: ProductPatch)
    requires Reconciled(t)
    requires UpdateOutcome(t, patch, false).Ok?
    ensures var after := UpdateOutcome(t, patch, false).value;
            var id := patch.id.value;
            var oldStock := t.products[id].stock;
            && (if patch.stock.Some? && patch.stock.value != oldStock then
                  && |after.history| == |t.history| + 1
                  && after.history[..|t.history|] == t.history
                  && after.history[|t.history|].productId == id
                  && after.history[|t.history|].kind == Adjustment
                  && after.history[|t.history|].change == patch.stock.value - oldStock
                  && after.history[|t.history|].reference.None?
                  && after.history[|t.history|].note ==
                       (if patch.stock.value > oldStock then "Stock added" else "Stock removed")
                else after.history == t.history)
            && LedgerSum(after.history, id) == after.products[id].stock
  {
    var after := UpdateOutcome(t, patch, false).value;
    if after.history != t.history {
      assert after.history[..|after.history| - 1] == t.history;
    }
  }

  lemma {:induction false} UpdateConsistent(t: Tables, patch: ProductPatch)
    requires Consistent(t)
    requires UpdateOutcome(t, patch, false).Ok?
    ensures Consistent(UpdateOutcome(t, patch, false).value)
  {
    var after := UpdateOutcome(t, patch, false).value;
    var id := patch.id.value;
    UpdateLedger(t, patch);
    if after.history != t.history {
      assert after.history[..|after.history| - 1] == t.history;
    }
    forall q | q in after.products
      ensures LedgerSum(after.history, q) == after.products[q].stock
    {
      if q != id {
        assert LedgerSum(after.history, q) == LedgerSum(t.history, q);
      }
    }
  }

  // ---------------------------------------------------------------------------
  // delete_product.php
  // ---------------------------------------------------------------------------

  /** `delete_product.php`: clear the active flag of the product, if there is one with that id. */
  function DeleteOutcome(t: Tables, id: Option<int>, updateFails: bool): Result<Tables, string> {
    if id.None? then Err("Product ID required")
    else if updateFails then Err("Failed to delete product")
    else if id.value in t.products then
      Ok(t.(products := t.products[id.value := t.products[id.value].(active := false)]))
    else Ok(t)
  }

  /** A delete fails, leaving the database as it was, exactly when the id is missing or the write is rejected. */
  lemma {:induction false} DeleteFailsIff(t: Tables, id: Option<int>, updateFails: bool)
    ensures DeleteOutcome(t, id, updateFails).Err? <==> id.None? || updateFails
    ensures id.None? ==> DeleteOutcome(t, id, updateFails) == Err("Product ID required")
    ensures id.Some? && updateFails ==> DeleteOutcome(t, id, updateFails) == Err("Failed to delete product")
  {
  }

  /**
   * A delete keeps every row and changes nothing but the active flag of the
   * product with that id; with no such product it reports success and
   * changes nothing at all.
   */
  lemma {:induction false} DeleteOnlyDeactivates(t: Tables, id: int)
    ensures DeleteOutcome(t, Some(id), false).Ok?
    ensures var after := DeleteOutcome(t, Some(id), false).value;
            && after.products.Keys == t.products.Keys
            && (forall q | q in t.products && q != id :: after.products[q] == t.products[q])
            && (id in t.products ==> after.products[id] == t.products[id].(active := false) && !after.products[id].active)
            && (id !in t.products ==> after == t)
            && after.history == t.history && after.customers == t.customers
            && after.invoices == t.invoices && after.items == t.items
            && after.nextCustomerId == t.nextCustomerId && after.nextProductId == t.nextProductId
            && after.nextInvoiceId == t.nextInvoiceId
  {
  }

  /** Deleting twice is deleting once. */
  lemma {:induction false} DeleteIdempotent(t: Tables, id: int)
    ensures DeleteOutcome(DeleteOutcome(t, Some(id), false).value, Some(id), false) == DeleteOutcome(t, Some(id), false)
  {
    if id in t.products {
      var once := DeleteOutcome(t, Some(id), false).value;
      assert once.products[id := once.products[id].(active := false)] == once.products;
    }
  }

  lemma {:induction false} DeleteConsistent(t: Tables, id: int)
    requires Consistent(t)
    ensures Consistent(DeleteOutcome(t, Some(id), false).value)
  {
  }
}
