/**
 * The browser's copy of the product list and the pure views over it in
 * `script.js`: lookup by id, the menu filter, the admin stock-adjustment
 * clamp and the admin table's stock classification.
 */
module Catalog {
  import opened Common
  import Schema
  import ProductAdmin

  /** An element of the client's `products` array, as `get_products.php` delivers it. */
  datatype ProductView = ProductView(
    id: int,
    name: string,
    category: string,
    price: real,
    stock: int,
    minStock: int,
    icon: string,
    isActive: bool)

  /** `Array.prototype.find` by id: the position of the first element with this id. */
  function FirstIndexOf<T>(s: seq<T>, id: int, idOf: T -> int): (r: Option<nat>)
    ensures r.None? <==> forall k | 0 <= k < |s| :: idOf(s[k]) != id
    ensures r.Some? ==> r.value < |s| && idOf(s[r.value]) == id
    ensures r.Some? ==> forall k | 0 <= k < r.value :: idOf(s[k]) != id
  {
    if s == [] then None
    else if idOf(s[0]) == id then Some(0)
    else
      match FirstIndexOf(s[1..], id, idOf)
      case None => None
      case Some(k) => Some(k + 1)
  }

  function ViewId(p: ProductView): int {
    p.id
  }

  /** `products.find(p => p.id === id)`. */
  function FindProduct(products: seq<ProductView>, id: int): (r: Option<ProductView>)
    ensures r.Some? ==> r.value in products && r.value.id == id
    ensures r.None? <==> forall k | 0 <= k < |products| :: products[k].id != id
    ensures r.Some? ==> r == Some(products[FirstIndexOf(products, id, ViewId).value])
  {
    match FirstIndexOf(products, id, ViewId)
    case None => None
    case Some(k) => Some(products[k])
  }

  // ---------------------------------------------------------------------------
  // Menu filter (renderMenu)
  // ---------------------------------------------------------------------------

  /** `Array.prototype.filter`. */
  function Filter<T>(s: seq<T>, keep: T -> bool): (r: seq<T>)
    ensures |r| <= |s|
    ensures forall x | x in r :: x in s && keep(x)
    ensures forall x | x in s && keep(x) :: x in r
  {
    if s == [] then []
    else (if keep(s[0]) then [s[0]] else []) + Filter(s[1..], keep)
  }

  /** `toLowerCase` on one character, for the ASCII letters. */
  function LowerChar(c: char): char {
    if 'A' <= c <= 'Z' then (c as int + 32) as char else c
  }

  function Lower(s: string): (r: string)
    ensures |r| == |s| && forall k | 0 <= k < |s| :: r[k] == LowerChar(s[k])
  {
    if s == [] then [] else [LowerChar(s[0])] + Lower(s[1..])
  }

  /** `part` occurs in `s` starting at position `k`. */
  predicate OccursAt(s: string, part: string, k: int) {
    0 <= k && k + |part| <= |s| && s[k..k + |part|] == part
  }

  /** `String.prototype.includes`: `part` occurs somewhere in `s`. */
  predicate Includes(s: string, part: string) {
    exists k | 0 <= k <= |s| :: OccursAt(s, part, k)
  }

  /** What a product must satisfy to be shown for a category button and a search box. */
  predicate Matches(p: ProductView, category: string, term: string) {
    && (category == "all" || p.category == category)
    && (term == "" || Includes(Lower(p.name), term))
  }

  /** `item => item.category === selectedCategory`. */
  function InCategory(category: string): ProductView -> bool {
    (p: ProductView) => p.category == category
  }

  /** `item => item.name.toLowerCase().includes(searchTerm)`. */
  function NameContains(term: string): ProductView -> bool {
    (p: ProductView) => Includes(Lower(p.name), term)
  }

  /** The menu `renderMenu` draws: the category filter, then the search filter. */
  function MenuItems(products: seq<ProductView>, category: string, term: string): seq<ProductView> {
    var byCategory := if category != "all" then Filter(products, InCategory(category)) else products;
    if term != "" then Filter(byCategory, NameContains(term)) else byCategory
  }

  /** A product is on the menu exactly when it is in the list and matches the category and the search term. */
  lemma {:induction false} MenuShowsExactlyMatches(products: seq<ProductView>, category: string, term: string, p: ProductView)
    ensures p in MenuItems(products, category, term) <==> p in products && Matches(p, category, term)
  {
  }

  /** The one-pass filter by `Matches`, the reference the two-stage filter is checked against. */
  function Matching(category: string, term: string): ProductView -> bool {
    (p: ProductView) => Matches(p, category, term)
  }

  lemma {:induction false} FilterAppend<T>(a: seq<T>, b: seq<T>, keep: T -> bool)
    ensures Filter(a + b, keep) == Filter(a, keep) + Filter(b, keep)
    decreases |a|
  {
    if a == [] {
      assert a + b == b;
    } else {
      assert (a + b)[1..] == a[1..] + b;
      FilterAppend(a[1..], b, keep);
    }
  }

  /** Filtering by `first` and then by `second` is filtering once by their conjunction. */
  lemma {:induction false} FilterTwice<T>(s: seq<T>, first: T -> bool, second: T -> bool, both: T -> bool)
    requires forall x :: both(x) == (first(x) && second(x))
    ensures Filter(Filter(s, first), second) == Filter(s, both)
    decreases |s|
  {
    if s != [] {
      var head: seq<T> := if first(s[0]) then [s[0]] else [];
      FilterAppend(head, Filter(s[1..], first), second);
      FilterTwice(s[1..], first, second, both);
      if first(s[0]) {
        assert head[1..] == [];
      }
    }
  }

  lemma {:induction false} FilterAll<T>(s: seq<T>, keep: T -> bool)
    requires forall x :: keep(x)
    ensures Filter(s, keep) == s
    decreases |s|
  {
    if s != [] {
      FilterAll(s[1..], keep);
    }
  }

  /**
   * The menu is the product list filtered once by `Matches`: the same
   * products, in the same order, as a single pass would keep.
   */
  lemma {:induction false} MenuIsOneFilter(products: seq<ProductView>, category: string, term: string)
    ensures MenuItems(products, category, term) == Filter(products, Matching(category, term))
  {
    var byCategory := if category != "all" then Filter(products, InCategory(category)) else products;
    var everything := (p: ProductView) => true;
    if category != "all" {
      if term != "" {
        FilterTwice(products, InCategory(category), NameContains(term), Matching(category, term));
      } else {
        FilterTwice(products, InCategory(category), everything, Matching(category, term));
        FilterAll(byCategory, everything);
      }
    } else {
      if term != "" {
        FilterTwice(products, everything, NameContains(term), Matching(category, term));
        FilterAll(products, everything);
      } else {
        FilterAll(products, Matching(category, term));
      }
    }
  }

  // ---------------------------------------------------------------------------
  // Admin view (renderAdminView, adjustStock)
  // ---------------------------------------------------------------------------

  /** `Math.max(0, stock + change)`: the stock the admin buttons ask for. */
  function AdjustedStock(stock: int, change: int): (r: int)
    ensures r >= 0 && r >= stock + change
    ensures r == 0 || r == stock + change
  {
    if stock + change > 0 then stock + change else 0
  }

  /** The `update_product.php` request `adjustStock` sends, or `None` when the id is not in the list. */
  function AdjustRequest(products: seq<ProductView>, id: int, change: int): Option<ProductAdmin.ProductPatch> {
    match FindProduct(products, id)
    case None => None
    case Some(p) => Some(ProductAdmin.ProductPatch(Some(id), None, None, None, Some(AdjustedStock(p.stock, change)),
                                                   None, None))
  }

  /**
   * The server applies an adjustment request by setting the stock to the
   * clamped value, never below zero, and logs the difference from the stock
   * it held.
   */
  lemma {:induction false} AdjustmentNeverNegative(products: seq<ProductView>, id: int, change: int, t: Schema.Tables)
    requires AdjustRequest(products, id, change).Some?
    requires id in t.products
    ensures var patch := AdjustRequest(products, id, change).value;
            var shown := FindProduct(products, id).value.stock;
            && ProductAdmin.UpdateOutcome(t, patch, false).Ok?
            && ProductAdmin.UpdateOutcome(t, patch, false).value.products[id].stock == AdjustedStock(shown, change)
            && ProductAdmin.UpdateOutcome(t, patch, false).value.products[id].stock >= 0
            && (AdjustedStock(shown, change) != t.products[id].stock ==>
                  ProductAdmin.UpdateOutcome(t, patch, false).value.history ==
                  t.history + [ProductAdmin.AdjustmentEntry(id, t.products[id].stock, AdjustedStock(shown, change))])
  {
  }

  /** The class of a row of the admin table. */
  datatype RowClass = OutOfStockRow | LowStockRow | PlainRow

  function Classify(p: ProductView): RowClass {
    if p.stock == 0 then OutOfStockRow else if p.stock < p.minStock then LowStockRow else PlainRow
  }

  /** The products the "Low Stock Alert" counts. */
  function LowStockProducts(products: seq<ProductView>): seq<ProductView> {
    Filter(products, (p: ProductView) => p.stock < p.minStock)
  }

  /** The products the "Out of Stock Alert" counts. */
  function OutOfStockProducts(products: seq<ProductView>): seq<ProductView> {
    Filter(products, (p: ProductView) => p.stock == 0)
  }

  /**
   * The alerts and the row classes agree: a listed product is in the
   * out-of-stock alert exactly when its row is out of stock, and in the
   * low-stock alert exactly when its row is low, or out of stock with a
   * positive minimum.
   */
  lemma {:induction false} AlertsMatchRows(products: seq<ProductView>, p: ProductView)
    requires p in products
    ensures p in OutOfStockProducts(products) <==> Classify(p) == OutOfStockRow
    ensures p in LowStockProducts(products) <==>
            Classify(p) == LowStockRow || (Classify(p) == OutOfStockRow && p.minStock > 0)
  {
  }

  /** Filtering by two tests that agree on every element keeps the same elements. */
  lemma {:induction false} FilterAgreeing<T>(s: seq<T>, keep: T -> bool, same: T -> bool)
    requires forall x | x in s :: keep(x) == same(x)
    ensures Filter(s, keep) == Filter(s, same)
    decreases |s|
  {
    if s != [] {
      FilterAgreeing(s[1..], keep, same);
    }
  }

  /**
   * The alert lists are the rows of the admin table picked by their class, in
   * the table's order, so their lengths are the counts the alerts show: the
   * out-of-stock alert lists exactly the out-of-stock rows; the low-stock alert
   * lists the low-stock rows together with the out-of-stock rows whose minimum
   * is positive.
   */
  lemma {:induction false} AlertListsAreRowFilters(products: seq<ProductView>)
    ensures OutOfStockProducts(products) == Filter(products, (p: ProductView) => Classify(p) == OutOfStockRow)
    ensures LowStockProducts(products) ==
            Filter(products, (p: ProductView) =>
                     Classify(p) == LowStockRow || (Classify(p) == OutOfStockRow && p.minStock > 0))
  {
    FilterAgreeing(products, (p: ProductView) => p.stock == 0, (p: ProductView) => Classify(p) == OutOfStockRow);
    FilterAgreeing(products, (p: ProductView) => p.stock < p.minStock,
                   (p: ProductView) => Classify(p) == LowStockRow || (Classify(p) == OutOfStockRow && p.minStock > 0));
  }
}
