/**
 * The cart service's endpoints (cart_app/views.py) over its two tables.
 * The caller is already authenticated; `user` is the request's user id.
 */
module CartViews {
  import opened Common
  import CartSpec
  import opened CartModels
  import opened CartSerializers

  datatype Body =
    | CartBody(cart: CartJson)
    | ItemBody(item: ItemJson)
    | ErrorBody(error: string)
    | MessageBody(message: string)

  datatype Response = Response(status: int, body: Body)

  /** The rows of one cart are unique per product, created in id order, and below the next id. */
  predicate RowsValid(items: seq<CartItem>, nextItemId: int) {
    UniqueProducts(items) && IdsIncreasing(items) && forall i :: 0 <= i < |items| ==> items[i].id < nextItemId
  }

  /** Python's `not x` on an optional number: absent, or zero. */
  predicate Falsy(x: Option<int>) {
    x.None? || x.value == 0
  }

  predicate FalsyPrice(x: Option<real>) {
    x.None? || x.value == 0.0
  }

  /**
   * The row `CartItem.objects.get_or_create(cart, product_id, defaults)`
   * leaves behind once `add_to_cart` has accumulated into it: the existing
   * row with the quantity added and its price kept, or a new row.
   */
  function AddedRow(items: seq<CartItem>, productId: int, quantity: int, price: real, newId: int): CartItem {
    match IndexOfProduct(items, productId)
    case Some(i) => items[i].(quantity := items[i].quantity + quantity)
    case None => CartItem(newId, productId, quantity, price)
  }

  /** The cart's rows after `add_to_cart`: the existing row replaced in place, or the new one appended. */
  function AddedRows(items: seq<CartItem>, productId: int, quantity: int, price: real, newId: int): seq<CartItem> {
    match IndexOfProduct(items, productId)
    case Some(i) => items[i := AddedRow(items, productId, quantity, price, newId)]
    case None => items + [AddedRow(items, productId, quantity, price, newId)]
  }

  /** Accumulating keeps the rows valid and is the abstract add on the cart's lines. */
  lemma AddedRowsValid(items: seq<CartItem>, productId: int, quantity: int, price: real, newId: int)
    requires RowsValid(items, newId)
    ensures var after := AddedRows(items, productId, quantity, price, newId);
      RowsValid(after, newId + (if IndexOfProduct(items, productId).None? then 1 else 0)) &&
      LinesOf(after) == CartSpec.Added(LinesOf(items), productId, quantity, price)
  {
    match IndexOfProduct(items, productId)
    case Some(i) =>
      LinesOfSetQuantity(items, i, items[i].quantity + quantity);
      LinesOfRow(items, i);
    case None =>
      LinesOfAppend(items, CartItem(newId, productId, quantity, price));
  }

  /** Deleting a row or setting a row's quantity keeps a cart's rows valid. */
  lemma EditedRowsValid(items: seq<CartItem>, i: nat, quantity: int, nextItemId: int)
    requires RowsValid(items, nextItemId) && i < |items|
    ensures RowsValid(items[..i] + items[i + 1..], nextItemId)
    ensures RowsValid(items[i := items[i].(quantity := quantity)], nextItemId)
  {
    DeleteKeepsRows(items, i);
    var after := items[..i] + items[i + 1..];
    forall j | 0 <= j < |after| ensures after[j].id < nextItemId {
      assert after[j] in items;
    }
  }

  /** One cart per user, distinct cart ids below the next id, and each cart's rows valid. */
  predicate TablesValid(carts: map<int, Cart>, nextCartId: int, nextItemId: int) {
    (forall u :: u in carts ==>
      carts[u].userId == u && carts[u].id < nextCartId && RowsValid(carts[u].items, nextItemId)) &&
    (forall u, v :: u in carts && v in carts && u != v ==> carts[u].id != carts[v].id)
  }

  /** Replacing one cart's rows by valid rows keeps the tables valid. */
  lemma ReplaceRows(carts: map<int, Cart>, nextCartId: int, nextItemId: int, user: int, items: seq<CartItem>, nextItemId': int)
    requires TablesValid(carts, nextCartId, nextItemId) && user in carts
    requires RowsValid(items, nextItemId') && nextItemId <= nextItemId'
    ensures TablesValid(carts[user := carts[user].(items := items)], nextCartId, nextItemId')
  {
    var after := carts[user := carts[user].(items := items)];
    forall u | u in after
      ensures after[u].userId == u && after[u].id < nextCartId && RowsValid(after[u].items, nextItemId')
    {
      if u != user {
        assert RowsValid(carts[u].items, nextItemId);
      }
    }
  }

  /** The `Cart` and `CartItem` tables. */
  class CartStore {
    /** Carts by `user_id`, which is unique, so a user has at most one cart. */
    var carts: map<int, Cart>
    var nextCartId: int
    var nextItemId: int

    ghost predicate Valid()
      reads this
    {
      TablesValid(carts, nextCartId, nextItemId)
    }

    /** The user's cart as product lines; no cart reads as an empty one. */
    ghost function Lines(user: int): CartSpec.Lines
      reads this
    {
      if user in carts then LinesOf(carts[user].items) else map[]
    }

    ghost function RowsOf(user: int): seq<CartItem>
      reads this
    {
      if user in carts then carts[user].items else []
    }

    constructor ()
      ensures Valid() && carts == map[]
    {
      carts := map[];
      nextCartId := 1;
      nextItemId := 1;
    }

    /** `Cart.objects.get_or_create(user_id=user)`. */
    method GetOrCreateCart(user: int) returns (cart: Cart)
      requires Valid()
      modifies this
      ensures Valid() && user in carts && cart == carts[user]
      ensures user in old(carts) ==> carts == old(carts) && nextCartId == old(nextCartId)
      ensures user !in old(carts) ==>
        carts == old(carts)[user := Cart(old(nextCartId), user, [])] && nextCartId == old(nextCartId) + 1
      ensures nextItemId == old(nextItemId)
    {
      if user in carts {
        cart := carts[user];
      } else {
        cart := Cart(nextCartId, user, []);
        carts := carts[user := cart];
        nextCartId := nextCartId + 1;
      }
    }

    /** `get_cart`: the caller's cart, created empty if missing, with its items and totals. */
    method GetCart(user: int) returns (response: Response)
      requires Valid()
      modifies this
      ensures Valid() && user in carts && carts.Keys == old(carts).Keys + {user}
      ensures forall u :: u in old(carts) ==> carts[u] == old(carts)[u]
      ensures carts[user].items == old(RowsOf(user))
      ensures response == Response(200, CartBody(SerializeCart(carts[user])))
      ensures response.body.cart.totalItems as real == CartSpec.Units(Lines(user))
      ensures response.body.cart.totalPrice == CartSpec.Subtotal(Lines(user))
    {
      var cart := GetOrCreateCart(user);
      TotalItemsIsUnits(cart.items);
      TotalPriceIsSubtotal(cart.items);
      response := Response(200, CartBody(SerializeCart(cart)));
    }

    /**
     * `add_to_cart`: the cart is created first; a missing or zero product
     * id or price is refused with 400; otherwise the item is accumulated
     * (AddedRows) and returned with 201.
     */
    method AddToCart(user: int, productId: Option<int>, quantity: Option<int>, price: Option<real>)
      returns (response: Response)
      requires Valid()
      modifies this
      ensures Valid() && user in carts && carts.Keys == old(carts).Keys + {user}
      ensures forall u :: u in old(carts) && u != user ==> carts[u] == old(carts)[u]
      ensures carts[user].id == (if user in old(carts) then old(carts)[user].id else old(nextCartId))
      ensures Falsy(productId) || FalsyPrice(price) ==>
        response == Response(400, ErrorBody("product_id and price are required")) &&
        carts[user].items == old(RowsOf(user)) && nextItemId == old(nextItemId)
      ensures !Falsy(productId) && !FalsyPrice(price) ==>
        var q := if quantity.Some? then quantity.value else DefaultQuantity;
        carts[user].items == AddedRows(old(RowsOf(user)), productId.value, q, price.value, old(nextItemId)) &&
        response == Response(201, ItemBody(SerializeItem(AddedRow(old(RowsOf(user)), productId.value, q, price.value, old(nextItemId))))) &&
        nextItemId == old(nextItemId) + (if IndexOfProduct(old(RowsOf(user)), productId.value).None? then 1 else 0) &&
        Lines(user) == CartSpec.Added(old(Lines(user)), productId.value, q, price.value)
    {
      ghost var before := RowsOf(user);
      ghost var linesBefore := Lines(user);
      var cart := GetOrCreateCart(user);
      assert cart.items == before && LinesOf(before) == linesBefore;
      var q := if quantity.Some? then quantity.value else DefaultQuantity;
      if Falsy(productId) || FalsyPrice(price) {
        return Response(400, ErrorBody("product_id and price are required"));
      }
      var row := Accumulate(user, productId.value, q, price.value);
      response := Response(201, ItemBody(SerializeItem(row)));
    }

    /** The accumulation step of `add_to_cart`, on a cart that exists. */
    method Accumulate(user: int, productId: int, quantity: int, price: real) returns (row: CartItem)
      requires Valid() && user in carts
      modifies this
      ensures Valid()
      ensures carts == old(carts)[user := old(carts)[user].(items := AddedRows(old(carts)[user].items, productId, quantity, price, old(nextItemId)))]
      ensures row == AddedRow(old(carts)[user].items, productId, quantity, price, old(nextItemId))
      ensures nextCartId == old(nextCartId)
      ensures nextItemId == old(nextItemId) + (if IndexOfProduct(old(carts)[user].items, productId).None? then 1 else 0)
      ensures Lines(user) == CartSpec.Added(old(Lines(user)), productId, quantity, price)
    {
      var cart := carts[user];
      row := AddedRow(cart.items, productId, quantity, price, nextItemId);
      var items := AddedRows(cart.items, productId, quantity, price, nextItemId);
      var next := nextItemId + (if IndexOfProduct(cart.items, productId).None? then 1 else 0);
      AddedRowsValid(cart.items, productId, quantity, price, nextItemId);
      ReplaceRows(carts, nextCartId, nextItemId, user, items, next);
      carts := carts[user := cart.(items := items)];
      nextItemId := next;
    }

    /**
     * `update_cart_item`: an item not in the caller's cart is 404; a
     * missing quantity or one below 1 is 400; otherwise the quantity is
     * set exactly.
     */
    method UpdateCartItem(user: int, itemId: int, quantity: Option<int>) returns (response: Response)
      requires Valid()
      modifies this
      ensures Valid()
      ensures user !in old(carts) || IndexOfId(old(carts)[user].items, itemId).None? ==>
        response == Response(404, ErrorBody("Cart item not found")) && carts == old(carts)
      ensures user in old(carts) && IndexOfId(old(carts)[user].items, itemId).Some? ==>
        var before := old(carts)[user].items;
        var i := IndexOfId(before, itemId).value;
        if quantity.None? || quantity.value < 1 then
          response == Response(400, ErrorBody("Valid quantity is required")) && carts == old(carts)
        else
          carts == old(carts)[user := old(carts)[user].(items := before[i := before[i].(quantity := quantity.value)])] &&
          response == Response(200, ItemBody(SerializeItem(before[i].(quantity := quantity.value)))) &&
          before[i].productId in old(Lines(user)) &&
          Lines(user) == CartSpec.QuantitySet(old(Lines(user)), before[i].productId, quantity.value)
      ensures nextCartId == old(nextCartId) && nextItemId == old(nextItemId)
    {
      if user !in carts {
        return Response(404, ErrorBody("Cart item not found"));
      }
      var cart := carts[user];
      var found := IndexOfId(cart.items, itemId);
      if found.None? {
        return Response(404, ErrorBody("Cart item not found"));
      }
      var i := found.value;
      if quantity.None? || quantity.value < 1 {
        return Response(400, ErrorBody("Valid quantity is required"));
      }
      var row := cart.items[i].(quantity := quantity.value);
      LinesOfSetQuantity(cart.items, i, quantity.value);
      EditedRowsValid(cart.items, i, quantity.value, nextItemId);
      ReplaceRows(carts, nextCartId, nextItemId, user, cart.items[i := row], nextItemId);
      carts := carts[user := cart.(items := cart.items[i := row])];
      response := Response(200, ItemBody(SerializeItem(row)));
    }

    /** `remove_from_cart`: a row of the caller's cart is deleted (204); anything else is 404. */
    method RemoveFromCart(user: int, itemId: int) returns (response: Response)
      requires Valid()
      modifies this
      ensures Valid()
      ensures user !in old(carts) || IndexOfId(old(carts)[user].items, itemId).None? ==>
        response == Response(404, ErrorBody("Cart item not found")) && carts == old(carts)
      ensures user in old(carts) && IndexOfId(old(carts)[user].items, itemId).Some? ==>
        var before := old(carts)[user].items;
        var i := IndexOfId(before, itemId).value;
        carts == old(carts)[user := old(carts)[user].(items := before[..i] + before[i + 1..])] &&
        response == Response(204, MessageBody("Item removed from cart")) &&
        Lines(user) == CartSpec.Removed(old(Lines(user)), before[i].productId)
      ensures nextCartId == old(nextCartId) && nextItemId == old(nextItemId)
    {
      if user !in carts {
        return Response(404, ErrorBody("Cart item not found"));
      }
      var cart := carts[user];
      var found := IndexOfId(cart.items, itemId);
      if found.None? {
        return Response(404, ErrorBody("Cart item not found"));
      }
      var i := found.value;
      LinesOfDelete(cart.items, i);
      EditedRowsValid(cart.items, i, 0, nextItemId);
      ReplaceRows(carts, nextCartId, nextItemId, user, cart.items[..i] + cart.items[i + 1..], nextItemId);
      carts := carts[user := cart.(items := cart.items[..i] + cart.items[i + 1..])];
      response := Response(204, MessageBody("Item removed from cart"));
    }

    /** `clear_cart`: every row of the caller's cart goes (204); with no cart, 200 and nothing changes. */
    method ClearCart(user: int) returns (response: Response)
      requires Valid()
      modifies this
      ensures Valid()
      ensures user !in old(carts) ==>
        response == Response(200, MessageBody("Cart is already empty")) && carts == old(carts)
      ensures user in old(carts) ==>
        carts == old(carts)[user := old(carts)[user].(items := [])] &&
        response == Response(204, MessageBody("Cart cleared")) && Lines(user) == map[]
      ensures nextCartId == old(nextCartId) && nextItemId == old(nextItemId)
    {
      if user !in carts {
        return Response(200, MessageBody("Cart is already empty"));
      }
      carts := carts[user := carts[user].(items := [])];
      response := Response(204, MessageBody("Cart cleared"));
    }
  }
}
