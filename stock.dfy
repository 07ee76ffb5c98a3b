/**
  * The advisory stock pre-check run before payment (`validateStock`): cart
  * quantities are grouped per product id and compared with the stock levels
  * fetched for those ids. It stops at the first product that is missing or short.
  * The binding stock check happens on the server when the order is placed and
  * is not part of this model.
  */
module Stock {
  import opened Wrappers
  import opened Pricing

  /** A row of the `products` table as selected: `id, stock, name`. */
  datatype Product = Product(id: string, stock: int, name: string)

  /** The answer of the products query: the rows found (possibly none), or an error. */
  datatype FetchResult = Fetched(products: seq<Product>) | FetchFailed

  /** Why the pre-check passed or failed; each failure is shown to the shopper. */
  datatype StockVerdict =
    | InStock
    | NoLongerExists(itemName: string)
    | OutOfStock(productName: string, left: int)
    | CouldNotValidate

  /** `cartItems.map(i => i.id)`: the ids the query asks for. */
  function ItemIds(cart: seq<CartLine>): (ids: seq<string>)
    ensures |ids| == |cart|
    ensures forall id :: id in ids <==> InCart(cart, id)
  {
    var ids := seq(|cart|, k requires 0 <= k < |cart| => cart[k].id);
    assert forall k :: 0 <= k < |cart| ==> ids[k] == cart[k].id;
    ids
  }

  /** Some line of the cart is for product `id`. */
  predicate InCart(cart: seq<CartLine>, id: string) {
    exists k :: 0 <= k < |cart| && cart[k].id == id
  }

  /** The summed quantity of every cart line for product `id`, added up line by line
      as the grouping reduction does. */
  function GroupedQuantity(cart: seq<CartLine>, id: string): int {
    if cart == [] then 0
    else
      var last := cart[|cart| - 1];
      GroupedQuantity(cart[..|cart| - 1], id) + (if last.id == id then last.quantity else 0)
  }

  predicate NoDuplicates(ids: seq<string>) {
    forall a, b :: 0 <= a < b < |ids| ==> ids[a] != ids[b]
  }

  /** The grouped ids in the order `Object.entries` lists them: the order in which
      each id was first added to the grouping record. */
  function DistinctIds(cart: seq<CartLine>): seq<string> {
    if cart == [] then []
    else
      var prev := DistinctIds(cart[..|cart| - 1]);
      var id := cart[|cart| - 1].id;
      if id in prev then prev else prev + [id]
  }

  /** A product that no cart line is for has a grouped quantity of zero. */
  lemma {:induction false} GroupedQuantityNotInCart(cart: seq<CartLine>, id: string)
    requires !InCart(cart, id)
    ensures GroupedQuantity(cart, id) == 0
  {
    if cart != [] {
      GroupedQuantityNotInCart(cart[..|cart| - 1], id);
    }
  }

  /** The grouped ids are each listed once, and they are exactly the ids in the cart. */
  lemma {:induction false} DistinctIdsShape(cart: seq<CartLine>)
    ensures NoDuplicates(DistinctIds(cart))
    ensures forall id :: id in DistinctIds(cart) <==> InCart(cart, id)
  {
    if cart != [] {
      var prefix := cart[..|cart| - 1];
      DistinctIdsShape(prefix);
      forall x ensures InCart(cart, x) <==> InCart(prefix, x) || x == cart[|cart| - 1].id {
        if InCart(prefix, x) {
          var k :| 0 <= k < |prefix| && prefix[k].id == x;
          assert cart[k].id == x;
        }
        if InCart(cart, x) && x != cart[|cart| - 1].id {
          var k :| 0 <= k < |cart| && cart[k].id == x;
          assert prefix[k].id == x;
        }
      }
    }
  }

  /** `list.find(p => p.id === id)`: the first product with that id. */
  function FindProduct(products: seq<Product>, id: string): Option<Product> {
    if products == [] then None
    else if products[0].id == id then Some(products[0])
    else FindProduct(products[1..], id)
  }

  /** The product found is one of the fetched rows with that id, and none is found
      exactly when no row has that id; any earlier row has another id. */
  lemma {:induction false} FindProductSpec(products: seq<Product>, id: string)
    ensures var r := FindProduct(products, id);
            && (r.Some? ==> exists k :: 0 <= k < |products| && products[k] == r.value && r.value.id == id
                                     && forall j :: 0 <= j < k ==> products[j].id != id)
            && (r.None? <==> forall k :: 0 <= k < |products| ==> products[k].id != id)
  {
    if products != [] && products[0].id != id {
      FindProductSpec(products[1..], id);
      var r := FindProduct(products, id);
      if r.Some? {
        var k :| 0 <= k < |products[1..]| && products[1..][k] == r.value && r.value.id == id
                 && forall j :: 0 <= j < k ==> products[1..][j].id != id;
        assert products[k + 1] == r.value;
      }
    }
  }

  /** The name shown when a product no longer exists: the name of the first cart line
      for that id, or `Product` when that name is empty. */
  function CartItemName(cart: seq<CartLine>, id: string): (name: string)
    ensures name != ""
  {
    if cart == [] then "Product"
    else if cart[0].id == id then (if cart[0].name != "" then cart[0].name else "Product")
    else CartItemName(cart[1..], id)
  }

  /** The name shown is the first matching cart line's name, or `Product` when that
      name is empty or no line is for the product. */
  lemma {:induction false} CartItemNameSpec(cart: seq<CartLine>, id: string, k: nat)
    requires k < |cart| && cart[k].id == id
    requires forall j :: 0 <= j < k ==> cart[j].id != id
    ensures CartItemName(cart, id) == if cart[k].name != "" then cart[k].name else "Product"
  {
    if k > 0 {
      CartItemNameSpec(cart[1..], id, k - 1);
    }
  }

  /** With no cart line for the product, the name shown is `Product`. */
  lemma {:induction false} CartItemNameMissing(cart: seq<CartLine>, id: string)
    requires !InCart(cart, id)
    ensures CartItemName(cart, id) == "Product"
  {
    if cart != [] {
      forall k | 0 <= k < |cart[1..]| ensures cart[1..][k].id != id {
        assert cart[1..][k] == cart[k + 1];
      }
      CartItemNameMissing(cart[1..], id);
    }
  }

  /** Product `id` was fetched and its stock covers the grouped quantity. */
  predicate Covered(products: seq<Product>, cart: seq<CartLine>, id: string) {
    var p := FindProduct(products, id);
    p.Some? && p.value.stock >= GroupedQuantity(cart, id)
  }

  /** The verdict of walking the grouped ids in order, stopping at the first one
      that is missing or short. */
  function CheckIds(ids: seq<string>, cart: seq<CartLine>, products: seq<Product>): StockVerdict {
    if ids == [] then InStock
    else
      var p := FindProduct(products, ids[0]);
      if p.None? then NoLongerExists(CartItemName(cart, ids[0]))
      else if p.value.stock < GroupedQuantity(cart, ids[0]) then OutOfStock(p.value.name, p.value.stock)
      else CheckIds(ids[1..], cart, products)
  }

  /** The specification of the pre-check: a failed query cannot validate anything. */
  function StockCheck(cart: seq<CartLine>, fetched: FetchResult): StockVerdict {
    match fetched
    case FetchFailed => CouldNotValidate
    case Fetched(products) => CheckIds(DistinctIds(cart), cart, products)
  }

  /** `validateStock`: query the stock of the cart's products (`fetch` stands for the
      database query), group the cart quantities per product id into a record, then
      walk the record's entries, returning at the first missing or short product. */
  method ValidateStock(cart: seq<CartLine>, fetch: seq<string> -> FetchResult) returns (verdict: StockVerdict)
    ensures verdict == StockCheck(cart, fetch(ItemIds(cart)))
  {
    var fetched := fetch(ItemIds(cart));
    if fetched.FetchFailed? {
      return CouldNotValidate;
    }
    var products := fetched.products;

    var quantities: map<string, int> := map[];
    var keys: seq<string> := [];
    var i := 0;
    while i < |cart|
      invariant 0 <= i <= |cart|
      invariant keys == DistinctIds(cart[..i])
      invariant forall id :: id in quantities <==> id in keys
      invariant forall id :: id in quantities ==> quantities[id] == GroupedQuantity(cart[..i], id)
    {
      var item := cart[i];
      DistinctIdsShape(cart[..i]);
      if item.id !in quantities {
        GroupedQuantityNotInCart(cart[..i], item.id);
      }
      var sofar := if item.id in quantities then quantities[item.id] else 0;
      quantities := quantities[item.id := sofar + item.quantity];
      if item.id !in keys {
        keys := keys + [item.id];
      }
      assert cart[..i + 1][..i] == cart[..i];
      i := i + 1;
    }
    assert cart[..i] == cart;

    var k := 0;
    while k < |keys|
      invariant 0 <= k <= |keys|
      invariant CheckIds(keys[k..], cart, products) == CheckIds(keys, cart, products)
    {
      var productId := keys[k];
      var totalQuantity := quantities[productId];
      var product := FindProduct(products, productId);
      if product.None? {
        return NoLongerExists(CartItemName(cart, productId));
      }
      if product.value.stock < totalQuantity {
        return OutOfStock(product.value.name, product.value.stock);
      }
      k := k + 1;
    }
    return InStock;
  }

  /** Walking the ids passes exactly when every one of them is covered. */
  lemma {:induction false} CheckIdsInStockIff(ids: seq<string>, cart: seq<CartLine>, products: seq<Product>)
    ensures CheckIds(ids, cart, products) == InStock
            <==> forall k :: 0 <= k < |ids| ==> Covered(products, cart, ids[k])
  {
    if ids != [] {
      CheckIdsInStockIff(ids[1..], cart, products);
      assert forall k :: 1 <= k < |ids| ==> ids[k] == ids[1..][k - 1];
    }
  }

  /** The pre-check passes exactly when the query succeeded and every product in the
      cart was found with stock at least its summed quantity over all cart lines. */
  lemma StockCheckInStockIff(cart: seq<CartLine>, fetched: FetchResult)
    ensures StockCheck(cart, fetched) == InStock
            <==> fetched.Fetched? && forall k :: 0 <= k < |cart| ==> Covered(fetched.products, cart, cart[k].id)
  {
    if fetched.Fetched? {
      var ids := DistinctIds(cart);
      var ps := fetched.products;
      CheckIdsInStockIff(ids, cart, ps);
      DistinctIdsShape(cart);
      if forall j :: 0 <= j < |ids| ==> Covered(ps, cart, ids[j]) {
        forall k | 0 <= k < |cart| ensures Covered(ps, cart, cart[k].id) {
          assert InCart(cart, cart[k].id);
          var j :| 0 <= j < |ids| && ids[j] == cart[k].id;
        }
      }
      if forall k :: 0 <= k < |cart| ==> Covered(ps, cart, cart[k].id) {
        forall j | 0 <= j < |ids| ensures Covered(ps, cart, ids[j]) {
          assert ids[j] in ids;
          var k :| 0 <= k < |cart| && cart[k].id == ids[j];
        }
      }
    }
  }

  /** A reported shortage names a fetched product, with its stock, whose stock is below
      the summed quantity of that product in the cart; a reported missing product is
      one the query did not return, named as in the cart. */
  lemma CheckIdsFailureIsReal(ids: seq<string>, cart: seq<CartLine>, products: seq<Product>)
    ensures CheckIds(ids, cart, products).OutOfStock? ==>
              exists k :: 0 <= k < |ids| && FindProduct(products, ids[k]).Some?
                && CheckIds(ids, cart, products).productName == FindProduct(products, ids[k]).value.name
                && CheckIds(ids, cart, products).left == FindProduct(products, ids[k]).value.stock
                < GroupedQuantity(cart, ids[k])
    ensures CheckIds(ids, cart, products).NoLongerExists? ==>
              exists k :: 0 <= k < |ids| && FindProduct(products, ids[k]).None?
                && CheckIds(ids, cart, products).itemName == CartItemName(cart, ids[k])
  {
    if CheckIds(ids, cart, products) != InStock {
      CheckIdsReportsFirstFailure(ids, cart, products);
    }
  }

  /** A failing walk reports the first grouped id that is not covered: a missing
      product under its cart name, a short one under its own name and stock. */
  lemma {:induction false} CheckIdsReportsFirstFailure(ids: seq<string>, cart: seq<CartLine>, products: seq<Product>)
    requires CheckIds(ids, cart, products) != InStock
    ensures exists k :: 0 <= k < |ids| && !Covered(products, cart, ids[k])
              && (forall j :: 0 <= j < k ==> Covered(products, cart, ids[j]))
              && CheckIds(ids, cart, products)
                 == (var p := FindProduct(products, ids[k]);
                     if p.None? then NoLongerExists(CartItemName(cart, ids[k]))
                     else OutOfStock(p.value.name, p.value.stock))
  {
    if Covered(products, cart, ids[0]) {
      CheckIdsReportsFirstFailure(ids[1..], cart, products);
      var k :| 0 <= k < |ids[1..]| && !Covered(products, cart, ids[1..][k])
               && (forall j :: 0 <= j < k ==> Covered(products, cart, ids[1..][j]))
               && CheckIds(ids[1..], cart, products)
                  == (var p := FindProduct(products, ids[1..][k]);
                      if p.None? then NoLongerExists(CartItemName(cart, ids[1..][k]))
                      else OutOfStock(p.value.name, p.value.stock));
      assert ids[1..][k] == ids[k + 1];
      assert forall j :: 1 <= j < k + 1 ==> ids[j] == ids[1..][j - 1];
    }
  }

  /** Grouping adds up every line of the cart: splitting the cart splits the sum. */
  lemma {:induction false} GroupedQuantityAppend(a: seq<CartLine>, b: seq<CartLine>, id: string)
    ensures GroupedQuantity(a + b, id) == GroupedQuantity(a, id) + GroupedQuantity(b, id)
  {
    if b == [] {
      assert a + b == a;
    } else {
      assert (a + b)[..|a + b| - 1] == a + b[..|b| - 1];
      GroupedQuantityAppend(a, b[..|b| - 1], id);
    }
  }

  /** Two lines of the same product can fail the check together even when each fits
      on its own: 3 + 3 units against a stock of 5. */
  lemma VariantsAreSummed()
    ensures var cart := [CartLine("p", "Tee", 10.0, "", 3, Some("M"), None),
                         CartLine("p", "Tee", 10.0, "", 3, Some("L"), None)];
            StockCheck(cart, Fetched([Product("p", 5, "Tee")])) == OutOfStock("Tee", 5)
  {
    var cart := [CartLine("p", "Tee", 10.0, "", 3, Some("M"), None),
                 CartLine("p", "Tee", 10.0, "", 3, Some("L"), None)];
    assert cart[..1][..0] == [];
    assert cart[..1] == [cart[0]];
    assert DistinctIds(cart) == ["p"];
    assert GroupedQuantity(cart, "p") == 6;
  }
}
