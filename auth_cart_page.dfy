/**
 * The auth service's cart page (accounts/static/js/cart.js): listing the
 * server cart with its totals, the quantity box, removal, the checkout
 * button and the once-only page start.
 */
module AuthCartPage {
  import opened Common
  import opened AuthClientApi
  import opened AuthCartSummary
  import CartModels
  import CartSerializers

  /** What `loadCart` shows: the empty-cart message, or the rows and the totals. */
  datatype CartView = EmptyCart | Listed(rows: seq<SummaryRow>, totals: Totals)

  /**
   * `loadCart`: the cart is fetched without touching the badge; with no
   * items the empty message is shown; otherwise every item becomes a row
   * and the totals are worked out from the rows' subtotal.
   */
  method LoadCart(client: Client, cache: ProductCache, cartReply: Reply<CartPayload>, available: map<int, ProductInfo>)
    returns (view: CartView)
    modifies client`cartCount, cache
    ensures client.cartCount == old(client.cartCount)
    ensures FetchedItems(client.token, cartReply) == [] ==> view == EmptyCart && cache.entries == old(cache.entries)
    ensures FetchedItems(client.token, cartReply) != [] ==>
      view == Listed(RowsFor(old(cache.entries), available, FetchedItems(client.token, cartReply)),
                     TotalsOf(EntriesSubtotal(FetchedItems(client.token, cartReply))))
    ensures GrownFrom(cache.entries, old(cache.entries), available)
  {
    var items, _ := client.GetCart(cartReply, true);
    if |items| == 0 {
      return EmptyCart;
    }
    var rows, subtotal := Summarise(cache, items, available);
    view := Listed(rows, TotalsOf(subtotal));
  }

  /**
   * When the cart service answers with a cart, the page's subtotal is the
   * service's `total_price` and its badge-free listing has one row per item.
   */
  lemma PageTotalsMatchServer(cart: CartModels.Cart)
    ensures var items := EntriesOf(CartSerializers.SerializeCart(cart).items);
      |items| == |cart.items| &&
      TotalsOf(EntriesSubtotal(items)) == TotalsOf(CartSerializers.SerializeCart(cart).totalPrice)
  {
    ReceivedSubtotal(cart.items);
  }

  /** `parseInt(quantity)`, refused when it is not a number or below 1. */
  function QuantityUpdate(text: string): (q: Option<int>)
    ensures q.Some? ==> q.value >= 1
    ensures ParseInt(text).None? ==> q.None?
    ensures ParseInt(text).Some? ==> (q.Some? <==> ParseInt(text).value >= 1)
  {
    match ParseInt(text)
    case None => None
    case Some(n) => if n >= 1 then Some(n) else None
  }

  /** A number typed into the box is taken exactly when it is at least 1. */
  lemma QuantityUpdateOfWritten(n: int)
    ensures QuantityUpdate(IntToString(n)) == if n >= 1 then Some(n) else None
  {
    ParseIntOfIntToString(n);
  }

  /**
   * `updateQuantity`: a refused quantity shows 'Invalid quantity' and sends
   * nothing; an accepted one sends exactly one update. Both paths then
   * reload the cart (`reloads`, for the `loadCart()` the page calls next).
   */
  method UpdateQuantity(client: Client, text: string, reply: Reply<CartPayload>)
    returns (sent: Option<RequestOptions<QuantityRequest>>, notice: Option<string>, reloads: bool)
    ensures reloads
    ensures QuantityUpdate(text).None? ==> sent.None? && notice == Some("Invalid quantity")
    ensures QuantityUpdate(text).Some? ==>
      notice.None? && sent.Some? && sent.value.httpMethod == "PUT" &&
      sent.value.body == Some(QuantityRequest(QuantityUpdate(text).value))
  {
    var quantity := QuantityUpdate(text);
    if quantity.None? {
      return None, Some("Invalid quantity"), true;
    }
    var options, _ := client.UpdateCartItemQuantity(quantity.value, reply);
    sent := Some(options);
    notice := None;
    reloads := true;
  }

  /** `removeItem`: the removal is sent only when the user confirms. */
  method RemoveItem(client: Client, confirmed: bool, removeReply: Reply<CartPayload>, cartReply: Reply<CartPayload>)
    returns (sent: bool)
    modifies client`cartCount
    ensures sent <==> confirmed
    ensures !confirmed ==> client.cartCount == old(client.cartCount)
    ensures confirmed ==>
      client.RefreshedBadge(ApiCall(removeReply, ThrownCart).success, cartReply, old(client.cartCount), client.cartCount)
  {
    if !confirmed {
      return false;
    }
    var _, _, _ := client.RemoveFromCart(removeReply, cartReply);
    sent := true;
  }

  /** `proceedToCheckout`: an empty cart is refused with a notice; otherwise the page goes to the checkout. */
  method ProceedToCheckout(client: Client, cartReply: Reply<CartPayload>) returns (target: Option<string>, notice: Option<string>)
    modifies client`cartCount
    ensures client.cartCount == old(client.cartCount)
    ensures FetchedItems(client.token, cartReply) == [] ==> target.None? && notice == Some("Your cart is empty")
    ensures FetchedItems(client.token, cartReply) != [] ==> target == Some("/checkout") && notice.None?
  {
    var items, _ := client.GetCart(cartReply, true);
    if |items| == 0 {
      return None, Some("Your cart is empty");
    }
    return Some("/checkout"), None;
  }

  /** The page's once-only start: `cartPageInitialized`, and how many listings it has started. */
  class CartPage {
    var initialized: bool
    var loads: nat

    ghost predicate Valid()
      reads this
    {
      loads <= (if initialized then 1 else 0)
    }

    constructor ()
      ensures Valid() && !initialized && loads == 0
    {
      initialized := false;
      loads := 0;
    }

    /**
     * The `DOMContentLoaded` handler: the second and later calls do nothing;
     * the first marks the page started and lists the cart when a (truthy)
     * token is stored.
     */
    method Start(token: Option<string>) returns (load: bool)
      requires Valid()
      modifies this
      ensures Valid() && initialized && loads <= 1
      ensures old(initialized) ==> !load && loads == old(loads)
      ensures !old(initialized) ==> (load <==> token.Some? && token.value != "")
      ensures loads == old(loads) + (if load then 1 else 0)
    {
      if initialized {
        return false;
      }
      initialized := true;
      load := token.Some? && token.value != "";
      if load {
        loads := loads + 1;
      }
    }
  }
}
