/**
 * The cart service's JSON shapes (cart_app/serializers.py): an item with its
 * derived total, and a cart with its items and the two totals.
 */
module CartSerializers {
  import opened Common
  import CartSpec
  import opened CartModels

  /** `CartItemSerializer`: id, product_id, quantity, price and the read-only total. */
  datatype ItemJson = ItemJson(id: int, productId: int, quantity: int, price: real, total: real)

  /** `CartSerializer`: id, user_id, the items, total_items and total_price. */
  datatype CartJson = CartJson(id: int, userId: int, items: seq<ItemJson>, totalItems: int, totalPrice: real)

  function SerializeItem(item: CartItem): (j: ItemJson)
    ensures j.id == item.id && j.productId == item.productId
    ensures j.quantity == item.quantity && j.price == item.price
    ensures j.total == item.price * item.quantity as real
  {
    ItemJson(item.id, item.productId, item.quantity, item.price, ItemTotal(item))
  }

  /** `get_total_items`: Σ quantity. */
  function TotalItems(items: seq<CartItem>): int {
    if items == [] then 0 else TotalItems(items[..|items| - 1]) + items[|items| - 1].quantity
  }

  /** `get_total_price`: Σ item.total. */
  function TotalPrice(items: seq<CartItem>): real {
    if items == [] then 0.0 else TotalPrice(items[..|items| - 1]) + ItemTotal(items[|items| - 1])
  }

  function SerializeItems(items: seq<CartItem>): (js: seq<ItemJson>)
    ensures |js| == |items|
    ensures forall i :: 0 <= i < |items| ==> js[i] == SerializeItem(items[i])
  {
    if items == [] then [] else [SerializeItem(items[0])] + SerializeItems(items[1..])
  }

  /** A cart as the service returns it: items newest first, with both totals. */
  function SerializeCart(cart: Cart): (j: CartJson)
    ensures j.id == cart.id && j.userId == cart.userId
    ensures |j.items| == |cart.items|
    ensures forall i :: 0 <= i < |cart.items| ==> j.items[i] == SerializeItem(cart.items[|cart.items| - 1 - i])
    ensures cart.items == [] ==> j.items == [] && j.totalItems == 0 && j.totalPrice == 0.0
  {
    CartJson(cart.id, cart.userId, SerializeItems(NewestFirst(cart.items)), TotalItems(cart.items), TotalPrice(cart.items))
  }

  /** `total_items` is the number of units in the cart. */
  lemma {:induction false} TotalItemsIsUnits(items: seq<CartItem>)
    requires UniqueProducts(items)
    ensures TotalItems(items) as real == CartSpec.Units(LinesOf(items))
  {
    if items != [] {
      var init := items[..|items| - 1];
      var last := items[|items| - 1];
      assert UniqueProducts(init);
      TotalItemsIsUnits(init);
      LinesOfKeys(init, last.productId);
      CartSpec.MapSumRemove(LinesOf(items), last.productId, CartSpec.LineUnits);
      assert LinesOf(items) - {last.productId} == LinesOf(init);
    }
  }

  /** `total_price` is Σ price × quantity over the cart's lines. */
  lemma {:induction false} TotalPriceIsSubtotal(items: seq<CartItem>)
    requires UniqueProducts(items)
    ensures TotalPrice(items) == CartSpec.Subtotal(LinesOf(items))
  {
    if items != [] {
      var init := items[..|items| - 1];
      var last := items[|items| - 1];
      assert UniqueProducts(init);
      TotalPriceIsSubtotal(init);
      LinesOfKeys(init, last.productId);
      CartSpec.MapSumRemove(LinesOf(items), last.productId, CartSpec.LineTotal);
      assert LinesOf(items) - {last.productId} == LinesOf(init);
    }
  }
}
