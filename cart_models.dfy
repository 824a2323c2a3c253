/**
 * The cart service's tables (cart_app/models.py): one cart per user, and
 * cart items unique on (cart, product id). A cart's items are kept in the
 * order they were created; their ids grow in that order.
 */
module CartModels {
  import opened Common
  import CartSpec

  /** A `CartItem` row of one cart. */
  datatype CartItem = CartItem(id: int, productId: int, quantity: int, price: real)

  /** A `Cart` row together with its items, oldest first. */
  datatype Cart = Cart(id: int, userId: int, items: seq<CartItem>)

  /** `quantity = IntegerField(default=1)`. */
  const DefaultQuantity: int := 1

  /** The `total` property: price × quantity. */
  function ItemTotal(item: CartItem): real {
    item.price * item.quantity as real
  }

  /** `unique_together = ['cart', 'product_id']`, within one cart. */
  predicate UniqueProducts(items: seq<CartItem>) {
    forall i, j :: 0 <= i < j < |items| ==> items[i].productId != items[j].productId
  }

  /** Rows created later have larger ids. */
  predicate IdsIncreasing(items: seq<CartItem>) {
    forall i, j :: 0 <= i < j < |items| ==> items[i].id < items[j].id
  }

  /** The cart as product id to line; a later row for the same product would win. */
  function LinesOf(items: seq<CartItem>): CartSpec.Lines {
    if items == [] then map[]
    else
      var last := items[|items| - 1];
      LinesOf(items[..|items| - 1])[last.productId := CartSpec.Line(last.quantity, last.price)]
  }

  /** The position of the row with this product, if any. */
  function IndexOfProduct(items: seq<CartItem>, productId: int): (r: Option<nat>)
    ensures r.Some? ==> r.value < |items| && items[r.value].productId == productId
    ensures r.None? ==> forall i :: 0 <= i < |items| ==> items[i].productId != productId
  {
    LastIndexWhere(items, (x: CartItem) => x.productId == productId)
  }

  /** The position of the row with this id, if any. */
  function IndexOfId(items: seq<CartItem>, id: int): (r: Option<nat>)
    ensures r.Some? ==> r.value < |items| && items[r.value].id == id
    ensures r.None? ==> forall i :: 0 <= i < |items| ==> items[i].id != id
  {
    LastIndexWhere(items, (x: CartItem) => x.id == id)
  }

  /** Listed newest first, the ids strictly decrease and the rows are the same rows. */
  lemma NewestFirstOrdered(items: seq<CartItem>)
    requires IdsIncreasing(items)
    ensures forall i, j :: 0 <= i < j < |items| ==> NewestFirst(items)[i].id > NewestFirst(items)[j].id
    ensures forall x :: x in NewestFirst(items) <==> x in items
  {
    var r := NewestFirst(items);
    forall x | x in items ensures x in r {
      var i :| 0 <= i < |items| && items[i] == x;
      assert r[|items| - 1 - i] == x;
    }
  }

  /** A product has a line exactly when some row holds it. */
  lemma {:induction false} LinesOfKeys(items: seq<CartItem>, productId: int)
    ensures productId in LinesOf(items) <==> IndexOfProduct(items, productId).Some?
  {
    if items != [] {
      LinesOfKeys(items[..|items| - 1], productId);
    }
  }

  /** With products unique, a row's product maps to that row's quantity and price. */
  lemma {:induction false} LinesOfRow(items: seq<CartItem>, i: nat)
    requires UniqueProducts(items) && i < |items|
    ensures items[i].productId in LinesOf(items)
    ensures LinesOf(items)[items[i].productId] == CartSpec.Line(items[i].quantity, items[i].price)
  {
    if i < |items| - 1 {
      var init := items[..|items| - 1];
      assert init[i] == items[i];
      LinesOfRow(init, i);
    }
  }

  /** Setting one row's quantity sets that product's line and nothing else. */
  lemma {:induction false} LinesOfSetQuantity(items: seq<CartItem>, i: nat, quantity: int)
    requires UniqueProducts(items) && i < |items|
    ensures items[i].productId in LinesOf(items)
    ensures UniqueProducts(items[i := items[i].(quantity := quantity)])
    ensures LinesOf(items[i := items[i].(quantity := quantity)]) == CartSpec.QuantitySet(LinesOf(items), items[i].productId, quantity)
  {
    LinesOfRow(items, i);
    var after := items[i := items[i].(quantity := quantity)];
    var init := items[..|items| - 1];
    if i < |items| - 1 {
      assert after[..|after| - 1] == init[i := init[i].(quantity := quantity)];
      assert init[i] == items[i];
      LinesOfSetQuantity(init, i, quantity);
    } else {
      assert after[..|after| - 1] == init;
    }
  }

  /** The rows with row i deleted. */
  function Without(items: seq<CartItem>, i: nat): seq<CartItem>
    requires i < |items|
  {
    items[..i] + items[i + 1..]
  }

  /** After deleting row i, the rows before it stay put and the rows after it move up by one. */
  lemma DeletedRows(items: seq<CartItem>, i: nat)
    requires i < |items|
    ensures |Without(items, i)| == |items| - 1
    ensures forall j :: 0 <= j < i ==> Without(items, i)[j] == items[j]
    ensures forall j :: i <= j < |items| - 1 ==> Without(items, i)[j] == items[j + 1]
  {
  }

  /** Deleting a row keeps the products unique and the ids increasing, and invents no row. */
  lemma DeleteKeepsRows(items: seq<CartItem>, i: nat)
    requires i < |items|
    ensures UniqueProducts(items) ==> UniqueProducts(Without(items, i))
    ensures IdsIncreasing(items) ==> IdsIncreasing(Without(items, i))
    ensures forall j :: 0 <= j < |items| - 1 ==> Without(items, i)[j] in items
  {
    DeletedRows(items, i);
  }

  /** Removing a product commutes with writing another one. */
  lemma RemovedUpdate(lines: CartSpec.Lines, k: int, line: CartSpec.Line, p: int)
    requires k != p
    ensures CartSpec.Removed(lines[k := line], p) == CartSpec.Removed(lines, p)[k := line]
  {
  }

  /** Deleting one row drops that product's line and nothing else. */
  lemma {:induction false} LinesOfDelete(items: seq<CartItem>, i: nat)
    requires UniqueProducts(items) && i < |items|
    ensures UniqueProducts(Without(items, i))
    ensures LinesOf(Without(items, i)) == CartSpec.Removed(LinesOf(items), items[i].productId)
  {
    var after := Without(items, i);
    var init := items[..|items| - 1];
    var last := items[|items| - 1];
    var p := items[i].productId;
    DeleteKeepsRows(items, i);
    if i == |items| - 1 {
      assert after == init;
      LinesOfKeys(init, p);
    } else {
      DeletedRows(items, i);
      assert after[..|after| - 1] == Without(init, i);
      assert after[|after| - 1] == last;
      assert init[i] == items[i];
      LinesOfDelete(init, i);
      assert last.productId != p;
      RemovedUpdate(LinesOf(init), last.productId, CartSpec.Line(last.quantity, last.price), p);
    }
  }

  /** Appending a row for a product not yet in the cart opens that line. */
  lemma LinesOfAppend(items: seq<CartItem>, item: CartItem)
    requires UniqueProducts(items) && IndexOfProduct(items, item.productId).None?
    ensures UniqueProducts(items + [item])
    ensures LinesOf(items + [item]) == CartSpec.Added(LinesOf(items), item.productId, item.quantity, item.price)
  {
    assert (items + [item])[..|items|] == items;
    LinesOfKeys(items, item.productId);
  }
}
