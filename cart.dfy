/**
 * The billing screen's cart in `script.js`: a global array of lines, each a
 * copy of a product with a quantity, changed in place by `addToCart`,
 * `updateQuantity`, `removeFromCart` and `clearCart`, and summed by
 * `updateTotals`.
 */
module Cart {
  import opened Common
  import opened Catalog

  /** `{ ...item, quantity }`: the product as it was when added, and how many. */
  datatype CartLine = CartLine(product: ProductView, quantity: int)

  function LineId(l: CartLine): int {
    l.product.id
  }

  /**
   * What the user sees after an operation: a success or error toast, nothing,
   * or a `TypeError` thrown by the handler (which then changes nothing).
   */
  datatype Feedback = Success(text: string) | Failure(text: string) | Quiet | TypeError

  /** The cart after an operation, and the feedback it gave. */
  datatype CartStep = CartStep(lines: seq<CartLine>, feedback: Feedback)

  /** `cart.find(i => i.id === id)`, as a position. */
  function FindLine(cart: seq<CartLine>, id: int): Option<nat> {
    FirstIndexOf(cart, id, LineId)
  }

  /** `cart.splice(index, 1)`. */
  function RemoveAt(cart: seq<CartLine>, index: nat): seq<CartLine>
    requires index < |cart|
  {
    cart[..index] + cart[index + 1..]
  }

  /** `addToCart(id)`. */
  function AddStep(cart: seq<CartLine>, products: seq<ProductView>, id: int): CartStep {
    match FindProduct(products, id)
    case None => CartStep(cart, Failure("Product not found"))
    case Some(item) =>
      if item.stock == 0 then CartStep(cart, Failure("Product is out of stock!"))
      else
        match FindLine(cart, id)
        case Some(k) =>
          if cart[k].quantity >= item.stock then CartStep(cart, Failure("Cannot add more than available stock!"))
          else CartStep(cart[k := cart[k].(quantity := cart[k].quantity + 1)], Success(item.name + " added to cart"))
        case None => CartStep(cart + [CartLine(item, 1)], Success(item.name + " added to cart"))
  }

  /** `updateQuantity(index, change)`. */
  function UpdateStep(cart: seq<CartLine>, products: seq<ProductView>, index: int, change: int): CartStep {
    if !(0 <= index < |cart|) then CartStep(cart, TypeError)
    else
      var line := cart[index];
      var product := FindProduct(products, line.product.id);
      if change > 0 && product.None? then CartStep(cart, TypeError)
      else if change > 0 && line.quantity >= product.value.stock then
        CartStep(cart, Failure("Cannot exceed available stock!"))
      else if line.quantity + change <= 0 then CartStep(RemoveAt(cart, index), Quiet)
      else CartStep(cart[index := line.(quantity := line.quantity + change)], Quiet)
  }

  /** `removeFromCart(index)`. */
  function RemoveStep(cart: seq<CartLine>, index: int): CartStep {
    if !(0 <= index < |cart|) then CartStep(cart, TypeError)
    else CartStep(RemoveAt(cart, index), Success(cart[index].product.name + " removed from cart"))
  }

  /** `clearCart()`, with `confirmed` the answer to the confirmation dialog. */
  function ClearStep(cart: seq<CartLine>, confirmed: bool): CartStep {
    if cart == [] then CartStep(cart, Quiet)
    else if confirmed then CartStep([], Success("Cart cleared"))
    else CartStep(cart, Quiet)
  }

  // ---------------------------------------------------------------------------
  // What the cart keeps
  // ---------------------------------------------------------------------------

  /** No product appears on two lines. */
  predicate UniqueIds(cart: seq<CartLine>) {
    forall i, j | 0 <= i < j < |cart| :: cart[i].product.id != cart[j].product.id
  }

  predicate PositiveQuantities(cart: seq<CartLine>) {
    forall i | 0 <= i < |cart| :: cart[i].quantity >= 1
  }

  /** Every line's product is in the list, with at least the line's quantity in stock. */
  predicate WithinStock(cart: seq<CartLine>, products: seq<ProductView>) {
    forall i | 0 <= i < |cart| ::
      FindProduct(products, cart[i].product.id).Some? &&
      cart[i].quantity <= FindProduct(products, cart[i].product.id).value.stock
  }

  predicate Valid(cart: seq<CartLine>, products: seq<ProductView>) {
    UniqueIds(cart) && PositiveQuantities(cart) && WithinStock(cart, products)
  }

  /** The list as the server keeps it: no stock below zero. */
  predicate NonNegativeStock(products: seq<ProductView>) {
    forall k | 0 <= k < |products| :: products[k].stock >= 0
  }

  /** How many of product `id` the cart holds, over all its lines. */
  function QuantityOf(cart: seq<CartLine>, id: int): int {
    if cart == [] then 0
    else
      var last := cart[|cart| - 1];
      QuantityOf(cart[..|cart| - 1], id) + (if last.product.id == id then last.quantity else 0)
  }

  lemma {:induction false} QuantityOfConcat(a: seq<CartLine>, b: seq<CartLine>, id: int)
    ensures QuantityOf(a + b, id) == QuantityOf(a, id) + QuantityOf(b, id)
    decreases |b|
  {
    if b == [] {
      assert a + b == a;
    } else {
      assert (a + b)[..|a + b| - 1] == a + b[..|b| - 1];
      QuantityOfConcat(a, b[..|b| - 1], id);
    }
  }

  lemma {:induction false} QuantityOfAbsent(cart: seq<CartLine>, id: int)
    requires forall i | 0 <= i < |cart| :: cart[i].product.id != id
    ensures QuantityOf(cart, id) == 0
  {
    if cart != [] {
      QuantityOfAbsent(cart[..|cart| - 1], id);
    }
  }

  /** A cart split around line `k`: what is before it, the line, what is after it. */
  lemma {:induction false} SplitAt(cart: seq<CartLine>, k: nat, id: int)
    requires k < |cart|
    ensures cart == cart[..k] + [cart[k]] + cart[k + 1..]
    ensures QuantityOf(cart, id) ==
            QuantityOf(cart[..k], id) + (if cart[k].product.id == id then cart[k].quantity else 0) +
            QuantityOf(cart[k + 1..], id)
  {
    assert cart == cart[..k] + [cart[k]] + cart[k + 1..];
    QuantityOfConcat(cart[..k] + [cart[k]], cart[k + 1..], id);
    QuantityOfConcat(cart[..k], [cart[k]], id);
    assert [cart[k]][..0] == [];
  }

  /** With unique ids, the quantity of a product on the cart is the quantity of its one line. */
  lemma {:induction false} QuantityOfUnique(cart: seq<CartLine>, k: nat)
    requires UniqueIds(cart) && k < |cart|
    ensures QuantityOf(cart, cart[k].product.id) == cart[k].quantity
  {
    var id := cart[k].product.id;
    SplitAt(cart, k, id);
    QuantityOfAbsent(cart[..k], id);
    QuantityOfAbsent(cart[k + 1..], id);
  }

  /** Replacing line `k` by a line for the same product changes only that product's quantity. */
  lemma {:induction false} QuantityAfterReplace(cart: seq<CartLine>, k: nat, l: CartLine, id: int)
    requires k < |cart| && l.product.id == cart[k].product.id
    ensures QuantityOf(cart[k := l], id) ==
            QuantityOf(cart, id) + (if id == l.product.id then l.quantity - cart[k].quantity else 0)
  {
    var c := cart[k := l];
    SplitAt(cart, k, id);
    SplitAt(c, k, id);
    assert c[..k] == cart[..k] && c[k + 1..] == cart[k + 1..];
  }

  lemma {:induction false} QuantityAfterRemove(cart: seq<CartLine>, k: nat, id: int)
    requires k < |cart|
    ensures QuantityOf(RemoveAt(cart, k), id) ==
            QuantityOf(cart, id) - (if cart[k].product.id == id then cart[k].quantity else 0)
  {
    SplitAt(cart, k, id);
    QuantityOfConcat(cart[..k], cart[k + 1..], id);
  }

  lemma {:induction false} QuantityAfterAppend(cart: seq<CartLine>, l: CartLine, id: int)
    ensures QuantityOf(cart + [l], id) == QuantityOf(cart, id) + (if l.product.id == id then l.quantity else 0)
  {
    assert (cart + [l])[..|cart|] == cart;
  }

  // ---------------------------------------------------------------------------
  // addToCart
  // ---------------------------------------------------------------------------

  /**
   * An add succeeds exactly when the product is listed, in stock, and the
   * cart holds fewer of it than its stock; a refused add changes nothing.
   */
  lemma {:induction false} AddSucceedsIff(cart: seq<CartLine>, products: seq<ProductView>, id: int)
    requires UniqueIds(cart) && NonNegativeStock(products)
    ensures var r := AddStep(cart, products, id);
            && (r.feedback.Success? <==>
                  FindProduct(products, id).Some? && FindProduct(products, id).value.stock != 0 &&
                  QuantityOf(cart, id) < FindProduct(products, id).value.stock)
            && (!r.feedback.Success? ==> r.lines == cart)
  {
    match FindLine(cart, id)
    case Some(k) => QuantityOfUnique(cart, k);
    case None => QuantityOfAbsent(cart, id);
  }

  /**
   * A successful add puts exactly one more of the product on the cart and
   * no more of any other; an existing line grows, otherwise a line is appended
   * at the end, and every other line keeps its place.
   */
  lemma {:induction false} AddCountsOne(cart: seq<CartLine>, products: seq<ProductView>, id: int, other: int)
    requires AddStep(cart, products, id).feedback.Success?
    ensures var r := AddStep(cart, products, id).lines;
            && QuantityOf(r, id) == QuantityOf(cart, id) + 1
            && (other != id ==> QuantityOf(r, other) == QuantityOf(cart, other))
            && |cart| <= |r| <= |cart| + 1
            && (forall i | 0 <= i < |cart| && cart[i].product.id != id :: r[i] == cart[i])
            && (|r| == |cart| + 1 <==> FindLine(cart, id).None?)
            && (FindLine(cart, id).Some? ==>
                  var k := FindLine(cart, id).value;
                  k < |r| && r[k] == cart[k].(quantity := cart[k].quantity + 1))
            && (FindLine(cart, id).None? ==> |cart| < |r| && r[|cart|] == CartLine(FindProduct(products, id).value, 1))
  {
    var item := FindProduct(products, id).value;
    match FindLine(cart, id)
    case Some(k) =>
      QuantityAfterReplace(cart, k, cart[k].(quantity := cart[k].quantity + 1), id);
      QuantityAfterReplace(cart, k, cart[k].(quantity := cart[k].quantity + 1), other);
    case None =>
      QuantityAfterAppend(cart, CartLine(item, 1), id);
      QuantityAfterAppend(cart, CartLine(item, 1), other);
  }

  /** A line given a new quantity, positive and within its product's stock, keeps the cart valid. */
  lemma {:induction false} SetQuantityKeepsValid(cart: seq<CartLine>, products: seq<ProductView>, index: nat, n: int)
    requires Valid(cart, products) && index < |cart|
    requires 1 <= n <= FindProduct(products, cart[index].product.id).value.stock
    ensures Valid(cart[index := cart[index].(quantity := n)], products)
  {
    var r := cart[index := cart[index].(quantity := n)];
    assert forall i | 0 <= i < |r| :: r[i].product == cart[i].product;
  }

  /** A new line of one, for a product not yet on the cart and in stock, keeps the cart valid. */
  lemma {:induction false} AppendKeepsValid(cart: seq<CartLine>, products: seq<ProductView>, item: ProductView)
    requires Valid(cart, products) && FindLine(cart, item.id).None?
    requires FindProduct(products, item.id) == Some(item) && item.stock >= 1
    ensures Valid(cart + [CartLine(item, 1)], products)
  {
    var r := cart + [CartLine(item, 1)];
    assert forall i | 0 <= i < |cart| :: r[i] == cart[i];
  }

  /** Adding keeps the cart valid against a list with no negative stock. */
  lemma {:induction false} AddKeepsValid(cart: seq<CartLine>, products: seq<ProductView>, id: int)
    requires Valid(cart, products) && NonNegativeStock(products)
    ensures Valid(AddStep(cart, products, id).lines, products)
  {
    match FindProduct(products, id)
    case None =>
    case Some(item) =>
      if item.stock != 0 {
        match FindLine(cart, id)
        case Some(k) =>
          if cart[k].quantity < item.stock {
            SetQuantityKeepsValid(cart, products, k, cart[k].quantity + 1);
          }
        case None =>
          var j := FirstIndexOf(products, id, ViewId).value;
          assert products[j].stock >= 0;
          AppendKeepsValid(cart, products, item);
      }
  }

  // ---------------------------------------------------------------------------
  // updateQuantity, removeFromCart
  // ---------------------------------------------------------------------------

  /**
   * A change that goes through touches only the line at the index: it gets the
   * new quantity in place, or is spliced out when that is not positive, and
   * every other line stays as it was, in its order.
   */
  lemma {:induction false} UpdateKeepsOtherLines(cart: seq<CartLine>, products: seq<ProductView>, index: nat, change: int)
    requires index < |cart|
    ensures var r := UpdateStep(cart, products, index, change);
            var q := cart[index].quantity;
            && (r.feedback == Quiet && q + change > 0 ==>
                  && |r.lines| == |cart|
                  && r.lines[index] == cart[index].(quantity := q + change)
                  && (forall i | 0 <= i < |cart| && i != index :: r.lines[i] == cart[i]))
            && (r.feedback == Quiet && q + change <= 0 ==> r.lines == cart[..index] + cart[index + 1..])
  {
  }

  /**
   * A change is refused exactly when it is positive and the line already
   * holds the product's stock; otherwise the product's quantity becomes the
   * old one plus the change, its line is removed exactly when that is not
   * positive, and every other line stays where it was.
   */
  lemma {:induction false} UpdateEffect(cart: seq<CartLine>, products: seq<ProductView>, index: nat, change: int, other: int)
    requires UniqueIds(cart) && index < |cart|
    requires change <= 0 || FindProduct(products, cart[index].product.id).Some?
    ensures var r := UpdateStep(cart, products, index, change);
            var id := cart[index].product.id;
            var q := cart[index].quantity;
            var refused := change > 0 && q >= FindProduct(products, id).value.stock;
            && (refused ==> r == CartStep(cart, Failure("Cannot exceed available stock!")))
            && (!refused ==> r.feedback == Quiet)
            && (!refused ==> (|r.lines| == |cart| - 1 <==> q + change <= 0))
            && (!refused ==> QuantityOf(r.lines, id) == (if q + change <= 0 then 0 else q + change))
            && (other != id ==> QuantityOf(r.lines, other) == QuantityOf(cart, other))
            && (!refused && q + change > 0 ==>
                  && |r.lines| == |cart|
                  && r.lines[index] == cart[index].(quantity := q + change)
                  && (forall i | 0 <= i < |cart| && i != index :: r.lines[i] == cart[i]))
            && (!refused && q + change <= 0 ==> r.lines == cart[..index] + cart[index + 1..])
  {
    var id := cart[index].product.id;
    var q := cart[index].quantity;
    QuantityOfUnique(cart, index);
    QuantityAfterRemove(cart, index, id);
    QuantityAfterRemove(cart, index, other);
    QuantityAfterReplace(cart, index, cart[index].(quantity := q + change), id);
    QuantityAfterReplace(cart, index, cart[index].(quantity := q + change), other);
    UpdateKeepsOtherLines(cart, products, index, change);
  }

  /** The quantity buttons (a change of at most one up) keep the cart valid. */
  lemma {:induction false} UpdateKeepsValid(cart: seq<CartLine>, products: seq<ProductView>, index: int, change: int)
    requires Valid(cart, products) && change <= 1
    ensures Valid(UpdateStep(cart, products, index, change).lines, products)
  {
    if 0 <= index < |cart| {
      var line := cart[index];
      var stock := FindProduct(products, line.product.id).value.stock;
      if !(change > 0 && line.quantity >= stock) {
        if line.quantity + change <= 0 {
          RemoveKeepsValid(cart, products, index);
        } else {
          SetQuantityKeepsValid(cart, products, index, line.quantity + change);
        }
      }
    }
  }

  /** Removing takes out exactly the line at the index and keeps the others in their order. */
  lemma {:induction false} RemoveKeepsOrder(cart: seq<CartLine>, index: int)
    ensures var r := RemoveStep(cart, index);
            if 0 <= index < |cart| then
              && |r.lines| == |cart| - 1
              && (forall i | 0 <= i < index :: r.lines[i] == cart[i])
              && (forall i | index <= i < |r.lines| :: r.lines[i] == cart[i + 1])
              && r.feedback == Success(cart[index].product.name + " removed from cart")
            else r == CartStep(cart, TypeError)
  {
  }

  lemma {:induction false} RemoveKeepsValid(cart: seq<CartLine>, products: seq<ProductView>, index: int)
    requires Valid(cart, products)
    ensures Valid(RemoveStep(cart, index).lines, products)
  {
    if 0 <= index < |cart| {
      RemoveKeepsOrder(cart, index);
    }
  }

  /** A confirmed clear of a non-empty cart empties it; otherwise the cart stays as it was. */
  lemma {:induction false} ClearEmpties(cart: seq<CartLine>, products: seq<ProductView>, confirmed: bool)
    ensures var r := ClearStep(cart, confirmed);
            && (cart != [] && confirmed ==> r == CartStep([], Success("Cart cleared")))
            && (cart == [] || !confirmed ==> r == CartStep(cart, Quiet))
            && Valid(r.lines, products) == (Valid(cart, products) || r.lines == [])
  {
  }

  // ---------------------------------------------------------------------------
  // updateTotals
  // ---------------------------------------------------------------------------

  /** The sales-tax rate the billing screen applies, 8%. */
  const TaxRate: real := 0.08

  function LineTotal(l: CartLine): real {
    l.product.price * (l.quantity as real)
  }

  /** `cart.reduce((sum, item) => sum + item.price * item.quantity, 0)`. */
  function Subtotal(cart: seq<CartLine>): real {
    if cart == [] then 0.0 else Subtotal(cart[..|cart| - 1]) + LineTotal(cart[|cart| - 1])
  }

  datatype Totals = Totals(subtotal: real, tax: real, total: real)

  /** `updateTotals`, before the amounts are printed with `toFixed(2)`. */
  function CartTotals(cart: seq<CartLine>): Totals {
    var subtotal := Subtotal(cart);
    Totals(subtotal, subtotal * TaxRate, subtotal + subtotal * TaxRate)
  }

  lemma {:induction false} SubtotalConcat(a: seq<CartLine>, b: seq<CartLine>)
    ensures Subtotal(a + b) == Subtotal(a) + Subtotal(b)
    decreases |b|
  {
    if b == [] {
      assert a + b == a;
    } else {
      assert (a + b)[..|a + b| - 1] == a + b[..|b| - 1];
      SubtotalConcat(a, b[..|b| - 1]);
    }
  }
  /**
   * The totals of two carts together are the sums of their totals: the
   * subtotal, the tax and the amount due each add up.
   */
  lemma {:induction false} TotalsConcat(a: seq<CartLine>, b: seq<CartLine>)
    ensures CartTotals(a + b).subtotal == CartTotals(a).subtotal + CartTotals(b).subtotal
    ensures CartTotals(a + b).tax == CartTotals(a).tax + CartTotals(b).tax
    ensures CartTotals(a + b).total == CartTotals(a).total + CartTotals(b).total
  {
    SubtotalConcat(a, b);
  }


  lemma {:induction false} SubtotalSplit(cart: seq<CartLine>, k: nat)
    requires k < |cart|
    ensures Subtotal(cart) == Subtotal(cart[..k]) + LineTotal(cart[k]) + Subtotal(cart[k + 1..])
  {
    var before := cart[..k];
    assert cart == (before + [cart[k]]) + cart[k + 1..];
    SubtotalConcat(before + [cart[k]], cart[k + 1..]);
    SubtotalAppend(before, cart[k]);
  }

  /** Changing one line changes the subtotal by that line's difference. */
  lemma {:induction false} SubtotalReplace(cart: seq<CartLine>, k: nat, l: CartLine)
    requires k < |cart|
    ensures Subtotal(cart[k := l]) == Subtotal(cart) - LineTotal(cart[k]) + LineTotal(l)
  {
    var c := cart[k := l];
    SubtotalSplit(cart, k);
    SubtotalSplit(c, k);
    assert c[..k] == cart[..k] && c[k + 1..] == cart[k + 1..];
  }

  /** One more of a line raises the subtotal by that line's price. */
  lemma {:induction false} SubtotalOneMore(cart: seq<CartLine>, k: nat)
    requires k < |cart|
    ensures Subtotal(cart[k := cart[k].(quantity := cart[k].quantity + 1)]) == Subtotal(cart) + cart[k].product.price
  {
    var l := cart[k].(quantity := cart[k].quantity + 1);
    SubtotalReplace(cart, k, l);
    assert LineTotal(l) == LineTotal(cart[k]) + cart[k].product.price;
  }

  lemma {:induction false} SubtotalAppend(cart: seq<CartLine>, l: CartLine)
    ensures Subtotal(cart + [l]) == Subtotal(cart) + LineTotal(l)
  {
    assert (cart + [l])[..|cart|] == cart;
  }

  /**
   * A successful add raises the subtotal by exactly one unit price: that of
   * the line already on the cart, or the listed price for a new line.
   */
  lemma {:induction false} AddRaisesSubtotal(cart: seq<CartLine>, products: seq<ProductView>, id: int)
    requires AddStep(cart, products, id).feedback.Success?
    ensures var r := AddStep(cart, products, id).lines;
            Subtotal(r) == Subtotal(cart) +
                           (if FindLine(cart, id).Some? then cart[FindLine(cart, id).value].product.price
                            else FindProduct(products, id).value.price)
  {
    var item := FindProduct(products, id).value;
    match FindLine(cart, id)
    case Some(k) =>
      SubtotalOneMore(cart, k);
    case None =>
      SubtotalAppend(cart, CartLine(item, 1));
  }

  /** Removing a line lowers the subtotal by exactly that line's total. */
  lemma {:induction false} RemoveLowersSubtotal(cart: seq<CartLine>, index: nat)
    requires index < |cart|
    ensures Subtotal(RemoveAt(cart, index)) == Subtotal(cart) - LineTotal(cart[index])
  {
    SubtotalSplit(cart, index);
    SubtotalConcat(cart[..index], cart[index + 1..]);
  }

  // ---------------------------------------------------------------------------
  // The global cart
  // ---------------------------------------------------------------------------

  /** The global `cart` array and the handlers that change it in place. */
  class ShoppingCart {
    var lines: seq<CartLine>

    constructor ()
      ensures lines == []
    {
      lines := [];
    }

    method AddToCart(products: seq<ProductView>, id: int) returns (feedback: Feedback)
      modifies this
      ensures CartStep(lines, feedback) == AddStep(old(lines), products, id)
      ensures Valid(old(lines), products) && NonNegativeStock(products) ==> Valid(lines, products)
    {
      if Valid(lines, products) && NonNegativeStock(products) {
        AddKeepsValid(lines, products, id);
      }
      var found := FindProduct(products, id);
      if found.None? {
        return Failure("Product not found");
      }
      var item := found.value;
      if item.stock == 0 {
        return Failure("Product is out of stock!");
      }
      var existing := FindLine(lines, id);
      if existing.Some? {
        var k := existing.value;
        if lines[k].quantity >= item.stock {
          return Failure("Cannot add more than available stock!");
        }
        lines := lines[k := lines[k].(quantity := lines[k].quantity + 1)];
      } else {
        lines := lines + [CartLine(item, 1)];
      }
      feedback := Success(item.name + " added to cart");
    }

    method UpdateQuantity(products: seq<ProductView>, index: int, change: int) returns (feedback: Feedback)
      modifies this
      ensures CartStep(lines, feedback) == UpdateStep(old(lines), products, index, change)
      ensures Valid(old(lines), products) && change <= 1 ==> Valid(lines, products)
    {
      if Valid(lines, products) && change <= 1 {
        UpdateKeepsValid(lines, products, index, change);
      }
      if !(0 <= index < |lines|) {
        return TypeError;
      }
      var product := FindProduct(products, lines[index].product.id);
      if change > 0 && product.None? {
        return TypeError;
      }
      if change > 0 && lines[index].quantity >= product.value.stock {
        return Failure("Cannot exceed available stock!");
      }
      lines := lines[index := lines[index].(quantity := lines[index].quantity + change)];
      if lines[index].quantity <= 0 {
        lines := lines[..index] + lines[index + 1..];
      }
      feedback := Quiet;
    }

    method RemoveFromCart(index: int) returns (feedback: Feedback)
      modifies this
      ensures CartStep(lines, feedback) == RemoveStep(old(lines), index)
    {
      if !(0 <= index < |lines|) {
        return TypeError;
      }
      var name := lines[index].product.name;
      lines := lines[..index] + lines[index + 1..];
      feedback := Success(name + " removed from cart");
    }

    method ClearCart(confirmed: bool) returns (feedback: Feedback)
      modifies this
      ensures CartStep(lines, feedback) == ClearStep(old(lines), confirmed)
    {
      if lines == [] {
        return Quiet;
      }
      if confirmed {
        lines := [];
        return Success("Cart cleared");
      }
      feedback := Quiet;
    }
  }
}
