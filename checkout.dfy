/**
 * `checkout()` in `script.js`: the form checks, in the order the screen makes
 * them, and the request it posts to `save_invoice.php`; and what the server
 * does with a request built this way.
 */
module Checkout {
  import opened Common
  import opened Catalog
  import opened Cart
  import Schema
  import Sales

  /** The billing form after `trim()`; an unselected payment method is `""`. */
  datatype CheckoutForm = CheckoutForm(name: string, phone: string, email: string, payment: string)

  /** The first check the form fails, in the screen's order, or `None`. */
  function Problem(form: CheckoutForm, cart: seq<CartLine>): Option<string> {
    if form.name == "" then Some("Please enter customer name")
    else if form.phone == "" then Some("Please enter phone number")
    else if cart == [] then Some("Cart is empty")
    else if form.payment == "" then Some("Please select payment method")
    else None
  }

  /** The fields of a cart line the server reads: `id`, `name`, `category`, `price`, `quantity`. */
  function ToSaleLine(l: CartLine): Sales.Line {
    Sales.Line(l.product.id, l.product.name, l.product.category, l.product.price, l.quantity)
  }

  function SaleLines(cart: seq<CartLine>): seq<Sales.Line> {
    seq(|cart|, k requires 0 <= k < |cart| => ToSaleLine(cart[k]))
  }

  /** `invoiceData`: an empty email is sent as `null`; the totals are those of `updateTotals`. */
  function InvoiceRequest(form: CheckoutForm, cart: seq<CartLine>): Sales.SaleRequest {
    var totals := CartTotals(cart);
    Sales.SaleRequest(Some(form.name), Some(form.phone), if form.email == "" then None else Some(form.email),
                      Some(form.payment), Some(SaleLines(cart)),
                      Some(totals.subtotal), Some(totals.tax), Some(totals.total))
  }

  /** The toast of a refused checkout, or the request that is posted. */
  function CheckoutOutcome(form: CheckoutForm, cart: seq<CartLine>): Result<Sales.SaleRequest, string> {
    match Problem(form, cart)
    case Some(message) => Err(message)
    case None => Ok(InvoiceRequest(form, cart))
  }

  /**
   * Checkout posts exactly when the name, the phone, the cart and the payment
   * method are all there, and otherwise reports the first missing one.
   */
  lemma {:induction false} CheckoutValidationOrder(form: CheckoutForm, cart: seq<CartLine>)
    ensures CheckoutOutcome(form, cart).Ok? <==>
            form.name != "" && form.phone != "" && cart != [] && form.payment != ""
    ensures form.name == "" ==> CheckoutOutcome(form, cart) == Err("Please enter customer name")
    ensures form.name != "" && form.phone == "" ==> CheckoutOutcome(form, cart) == Err("Please enter phone number")
    ensures form.name != "" && form.phone != "" && cart == [] ==> CheckoutOutcome(form, cart) == Err("Cart is empty")
    ensures form.name != "" && form.phone != "" && cart != [] && form.payment == "" ==>
              CheckoutOutcome(form, cart) == Err("Please select payment method")
  {
  }

  /**
   * What checkout posts passes the server's own checks: every required field
   * is there, the cart is not empty, and the lines are the cart's, in order.
   */
  lemma {:induction false} RequestPassesServerValidation(form: CheckoutForm, cart: seq<CartLine>)
    requires CheckoutOutcome(form, cart).Ok?
    ensures var req := CheckoutOutcome(form, cart).value;
            && Sales.HasRequiredFields(req)
            && req.items.value != []
            && req.items.value == SaleLines(cart)
            && |req.items.value| == |cart|
            && (forall k | 0 <= k < |cart| ::
                  req.items.value[k].id == cart[k].product.id && req.items.value[k].quantity == cart[k].quantity)
            && req.customerName.value == form.name && req.customerPhone.value == form.phone
            && req.paymentMethod.value == form.payment
            && req.subtotal.value == Subtotal(cart)
            && req.tax.value == TaxRate * req.subtotal.value
            && req.total.value == req.subtotal.value + req.tax.value
            && (req.email.None? <==> form.email == "")
  {
  }

  /** The sum of the `total_price` of some item rows. */
  function ItemsTotal(items: seq<Schema.InvoiceItem>): real {
    if items == [] then 0.0 else ItemsTotal(items[..|items| - 1]) + items[|items| - 1].totalPrice
  }

  /** The rows a saved sale writes for `lines`. */
  function ItemRows(invoiceId: nat, lines: seq<Sales.Line>): seq<Schema.InvoiceItem> {
    seq(|lines|, k requires 0 <= k < |lines| => Sales.ItemRow(invoiceId, lines[k]))
  }

  /** The server's per-line totals add up to the screen's subtotal. */
  lemma {:induction false} RowsTotalIsSubtotal(invoiceId: nat, cart: seq<CartLine>)
    ensures ItemsTotal(ItemRows(invoiceId, SaleLines(cart))) == Subtotal(cart)
  {
    if cart != [] {
      var init := cart[..|cart| - 1];
      var rows := ItemRows(invoiceId, SaleLines(cart));
      assert rows[..|rows| - 1] == ItemRows(invoiceId, SaleLines(init));
      RowsTotalIsSubtotal(invoiceId, init);
    }
  }

  /**
   * A checkout the server saves writes item rows whose totals add up to the
   * subtotal the request carried.
   */
  lemma {:induction false} SavedItemsMatchSubtotal(form: CheckoutForm, cart: seq<CartLine>, t: Schema.Tables, year: nat,
                                faults: Sales.StoreFaults)
    requires CheckoutOutcome(form, cart).Ok?
    requires Sales.Transaction(t, CheckoutOutcome(form, cart).value, year, faults).Saved?
    ensures var req := CheckoutOutcome(form, cart).value;
            var after := Sales.Transaction(t, req, year, faults).after;
            |t.items| <= |after.items| && ItemsTotal(after.items[|t.items|..]) == req.subtotal.value
  {
    var req := CheckoutOutcome(form, cart).value;
    var Saved(r, after) := Sales.Transaction(t, req, year, faults);
    Sales.SavedRows(t, req, year, faults);
    assert after.items[|t.items|..] == ItemRows(r.invoiceId, SaleLines(cart));
    RowsTotalIsSubtotal(r.invoiceId, cart);
  }

  /**
   * A cart with one line per product, each within the stock the server
   * holds, is saved when no write fails: the server's line-by-line recheck
   * finds enough stock for every line.
   */
  lemma {:induction false} CartWithinServerStockIsSaved(form: CheckoutForm, cart: seq<CartLine>, t: Schema.Tables, year: nat)
    requires CheckoutOutcome(form, cart).Ok?
    requires UniqueIds(cart)
    requires forall k | 0 <= k < |cart| ::
               cart[k].product.id in t.products && cart[k].quantity <= t.products[cart[k].product.id].stock
    ensures Sales.Transaction(t, CheckoutOutcome(form, cart).value, year, Sales.NoFaults()).Saved?
  {
    var req := CheckoutOutcome(form, cart).value;
    var lines := req.items.value;
    forall k | 0 <= k < |lines|
      ensures Sales.Fits(t.products, lines, 0, k)
    {
      assert forall j | 0 <= j < k :: lines[j].id != lines[k].id;
      Sales.SoldUnmentioned(lines, 0, k, lines[k].id);
    }
    Sales.SavedIff(t, req, year, Sales.NoFaults());
  }
}
