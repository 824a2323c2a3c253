/**
 * The products service's cart page (products_app/static/js/cart.js): the
 * totals shown for the local cart and the quantity box's three-way dispatch.
 */
module ProductsClientCart {
  import opened Common
  import CartSpec
  import opened ProductsClientApi

  /** What `loadCart` shows: the empty-cart message, or the rows' totals. */
  datatype CartView = EmptyMessage | Summary(totals: Totals)

  /** What `loadCart` shows for a cart. */
  ghost function CartViewOf(cart: LocalCart): CartView {
    if |cart| == 0 then EmptyMessage else Summary(TotalsOf(CartSpec.Subtotal(Project(cart))))
  }

  /**
   * `loadCart`: a cart with no keys shows the empty message; otherwise the
   * subtotal is Σ price × quantity over every line, then the 10% tax and
   * the total.
   */
  method LoadCart(storage: CartStorage) returns (view: CartView)
    ensures |storage.Contents()| == 0 ==> view == EmptyMessage
    ensures |storage.Contents()| != 0 ==>
      view == Summary(TotalsOf(CartSpec.Subtotal(Project(storage.Contents()))))
    ensures view == CartViewOf(storage.Contents())
  {
    var cart := storage.GetCart();
    if |cart| == 0 {
      return EmptyMessage;
    }
    var subtotal := 0.0;
    var rest := cart;
    while rest != map[]
      invariant rest.Keys <= cart.Keys
      invariant forall k :: k in rest ==> rest[k] == cart[k]
      invariant subtotal + CartSpec.Subtotal(Project(rest)) == CartSpec.Subtotal(Project(cart))
      decreases |rest|
    {
      ghost var some := CartSpec.SomeKey(rest);
      var k :| k in rest;
      var line := rest[k];
      SubtotalStep(rest, k);
      subtotal := subtotal + line.price * line.quantity as real;
      rest := rest - {k};
    }
    view := Summary(TotalsOf(subtotal));
  }

  /** Taking one line out of the sum. */
  lemma SubtotalStep(rest: LocalCart, k: int)
    requires k in rest
    ensures |rest - {k}| < |rest|
    ensures CartSpec.Subtotal(Project(rest)) == rest[k].price * rest[k].quantity as real + CartSpec.Subtotal(Project(rest - {k}))
  {
    CartSpec.MapSumRemove(Project(rest), k, CartSpec.LineTotal);
    assert Project(rest) - {k} == Project(rest - {k});
    CartSpec.RemoveOneKey(rest, k);
  }

  /** How `updateQuantity` reads the quantity box. */
  datatype QuantityAction = Invalid | AskRemove | SetQuantity(quantity: int)

  /**
   * `parseInt(value)`: NaN or a negative number is invalid, zero asks to
   * remove the line, a positive number sets the quantity.
   */
  function ClassifyQuantity(text: string): (a: QuantityAction)
    ensures a == Invalid <==> ParseInt(text).None? || ParseInt(text).value < 0
    ensures a == AskRemove <==> ParseInt(text) == Some(0)
    ensures a.SetQuantity? <==> ParseInt(text).Some? && ParseInt(text).value > 0
    ensures a.SetQuantity? ==> a.quantity == ParseInt(text).value && a.quantity >= 1
  {
    match ParseInt(text)
    case None => Invalid
    case Some(n) => if n < 0 then Invalid else if n == 0 then AskRemove else SetQuantity(n)
  }

  /** `removeItem`: the line goes only when the user confirms, and the cart is then shown again. */
  method RemoveItem(storage: CartStorage, productId: int, confirmed: bool) returns (view: Option<CartView>)
    modifies storage
    ensures confirmed ==> storage.Contents() == RemoveLine(old(storage.Contents()), productId) && storage.Valid()
    ensures confirmed ==> view == Some(CartViewOf(storage.Contents()))
    ensures !confirmed ==> storage.blob == old(storage.blob) && storage.badge == old(storage.badge) && view.None?
  {
    view := None;
    if confirmed {
      storage.RemoveFromCart(productId);
      var v := LoadCart(storage);
      view := Some(v);
    }
  }

  /**
   * `updateQuantity`: an invalid entry leaves the cart as it was, a zero
   * goes through the removal confirmation, a positive number replaces the
   * line's quantity (when the product is in the cart). The cart is shown
   * again on every path except a declined removal.
   */
  method UpdateQuantity(storage: CartStorage, productId: int, text: string, confirmed: bool)
    returns (rejected: bool, view: Option<CartView>)
    modifies storage
    ensures rejected <==> ClassifyQuantity(text) == Invalid
    ensures rejected ==> storage.blob == old(storage.blob) && storage.badge == old(storage.badge)
    ensures ClassifyQuantity(text) == AskRemove ==>
      storage.Contents() == (if confirmed then RemoveLine(old(storage.Contents()), productId) else old(storage.Contents()))
    ensures ClassifyQuantity(text).SetQuantity? ==>
      storage.Contents() == SetLineQuantity(old(storage.Contents()), productId, ClassifyQuantity(text).quantity)
    ensures ClassifyQuantity(text) == AskRemove && !confirmed ==> view.None?
    ensures ClassifyQuantity(text) != AskRemove || confirmed ==> view == Some(CartViewOf(storage.Contents()))
  {
    var action := ClassifyQuantity(text);
    rejected := action == Invalid;
    match action
    case Invalid =>
      var v := LoadCart(storage);
      view := Some(v);
    case AskRemove =>
      view := RemoveItem(storage, productId, confirmed);
    case SetQuantity(n) =>
      storage.UpdateCartItemQuantity(productId, n);
      var v := LoadCart(storage);
      view := Some(v);
  }

  /** A quantity box that shows a number the user typed dispatches on that number. */
  lemma ClassifyWrittenNumber(n: int)
    ensures n < 0 ==> ClassifyQuantity(IntToString(n)) == Invalid
    ensures n == 0 ==> ClassifyQuantity(IntToString(n)) == AskRemove
    ensures n > 0 ==> ClassifyQuantity(IntToString(n)) == SetQuantity(n)
  {
    ParseIntOfIntToString(n);
  }
}
