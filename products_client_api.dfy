/**
 * The products service's browser helper (products_app/static/js/api.js):
 * the request envelope, the request headers, and the cart kept in the
 * browser's local storage as one JSON object keyed by product id.
 */
module ProductsClientApi {
  import opened Common
  import CartSpec

  // ---------------------------------------------------------------------------
  // Headers and the response envelope
  // ---------------------------------------------------------------------------

  /**
   * `getHeaders(includeAuth)`: always a JSON content type; a bearer token is
   * added when authentication is asked for and a token was read at load time
   * (`localStorage.getItem('access_token') || null`, so an empty token is none).
   */
  function Headers(includeAuth: bool, accessToken: Option<string>): (h: map<string, string>)
    ensures "Content-Type" in h && h["Content-Type"] == "application/json"
    ensures "Authorization" in h <==> includeAuth && accessToken.Some? && accessToken.value != ""
    ensures "Authorization" in h ==> h["Authorization"] == "Bearer " + accessToken.value
    ensures h.Keys <= {"Content-Type", "Authorization"}
  {
    var base := map["Content-Type" := "application/json"];
    if includeAuth && accessToken.Some? && accessToken.value != "" then
      base["Authorization" := "Bearer " + accessToken.value]
    else base
  }

  /** A request body is serialised only for POST and PUT with data present. */
  function RequestBody<D>(httpMethod: string, data: Option<D>): (b: Option<D>)
    ensures b.Some? <==> data.Some? && (httpMethod == "POST" || httpMethod == "PUT")
    ensures b.Some? ==> b == data
  {
    if data.Some? && (httpMethod == "POST" || httpMethod == "PUT") then data else None
  }

  /** What `apiCall` resolves to: `{success: true, data}` or `{success: false, error}`. */
  datatype Outcome<D> = Succeeded(data: Option<D>) | Failed(error: string)

  /** `a || b` on strings: the empty string is falsy. */
  function OrElse(a: string, b: string): (r: string)
    ensures a != "" ==> r == a
    ensures a == "" ==> r == b
  {
    if a != "" then a else b
  }

  /**
   * `apiCall`: a 204 succeeds with no data before the body is read; a body
   * that is not JSON, or a failed fetch, is caught and reported with its
   * message; a non-2xx status reports the body's `error`, else its `message`,
   * else 'API Error'; a 2xx status passes the body through.
   */
  function ApiCall<D>(reply: Reply<D>, errorOf: D -> string, messageOf: D -> string): (r: Outcome<D>)
    ensures reply.NoResponse? ==> r == Failed(reply.reason)
    ensures !reply.NoResponse? && reply.status == 204 ==> r == Succeeded(None)
    ensures reply.NotJson? && reply.status != 204 ==> r == Failed(reply.reason)
    ensures reply.Replied? && reply.status != 204 && !IsOk(reply.status) ==>
      r == Failed(OrElse(errorOf(reply.body), OrElse(messageOf(reply.body), "API Error")))
    ensures reply.Replied? && reply.status != 204 && IsOk(reply.status) ==> r == Succeeded(Some(reply.body))
    ensures r.Succeeded? <==> !reply.NoResponse? && (reply.status == 204 || (reply.Replied? && IsOk(reply.status)))
  {
    match reply
    case NoResponse(reason) => Failed(reason)
    case NotJson(status, reason) => if status == 204 then Succeeded(None) else Failed(reason)
    case Replied(status, body) =>
      if status == 204 then Succeeded(None)
      else if !IsOk(status) then Failed(OrElse(errorOf(body), OrElse(messageOf(body), "API Error")))
      else Succeeded(Some(body))
  }

  /** A failed call always carries a non-empty message when the server said nothing. */
  lemma FailureMessageFallback<D>(status: int, body: D, errorOf: D -> string, messageOf: D -> string)
    requires status != 204 && !IsOk(status)
    requires errorOf(body) == "" && messageOf(body) == ""
    ensures ApiCall(Replied(status, body), errorOf, messageOf) == Failed("API Error")
  {
  }

  /** `getProducts(categoryId)`: the category filter is appended only for a truthy id. */
  function ProductsEndpoint(categoryId: Option<int>): (e: string)
    ensures categoryId.None? || categoryId.value == 0 ==> e == "/api/products/product"
    ensures categoryId.Some? && categoryId.value != 0 ==>
      e == "/api/products/product?category_id=" + IntToString(categoryId.value)
  {
    if categoryId.Some? && categoryId.value != 0 then
      "/api/products/product?category_id=" + IntToString(categoryId.value)
    else "/api/products/product"
  }

  // ---------------------------------------------------------------------------
  // The cart in local storage
  // ---------------------------------------------------------------------------

  /** One stored line: `{id, name, price, quantity}`. */
  datatype LocalLine = LocalLine(id: int, name: string, price: real, quantity: int)

  /** The parsed `cart` object, keyed by product id. */
  type LocalCart = map<int, LocalLine>

  /** `addToCart`'s `quantity = 1` default. */
  const DefaultQuantity: int := 1

  function QuantityOrDefault(quantity: Option<int>): (q: int)
    ensures quantity.None? ==> q == DefaultQuantity
    ensures quantity.Some? ==> q == quantity.value
  {
    if quantity.Some? then quantity.value else DefaultQuantity
  }

  /**
   * The effect of `addToCart` on the cart object: an existing line only
   * gains quantity (its id, name and price stay), otherwise one new line
   * appears; no other line is touched.
   */
  function AddLine(cart: LocalCart, productId: int, name: string, price: real, quantity: int): (r: LocalCart)
    ensures r.Keys == cart.Keys + {productId}
    ensures productId in cart ==>
      r[productId].quantity == cart[productId].quantity + quantity &&
      r[productId].id == cart[productId].id &&
      r[productId].name == cart[productId].name &&
      r[productId].price == cart[productId].price
    ensures productId !in cart ==> r[productId] == LocalLine(productId, name, price, quantity)
    ensures forall k :: k in cart && k != productId ==> r[k] == cart[k]
  {
    if productId in cart then
      cart[productId := cart[productId].(quantity := cart[productId].quantity + quantity)]
    else cart[productId := LocalLine(productId, name, price, quantity)]
  }

  /** The effect of `removeFromCart`: that key goes, whether or not it was there. */
  function RemoveLine(cart: LocalCart, productId: int): (r: LocalCart)
    ensures r.Keys == cart.Keys - {productId}
    ensures forall k :: k in r ==> r[k] == cart[k]
    ensures productId !in cart ==> r == cart
  {
    cart - {productId}
  }

  /**
   * The effect of `updateCartItemQuantity`: nothing for an absent product,
   * the same as removal for a quantity of zero or less, otherwise only that
   * line's quantity is replaced.
   */
  function SetLineQuantity(cart: LocalCart, productId: int, quantity: int): (r: LocalCart)
    ensures productId !in cart ==> r == cart
    ensures productId in cart && quantity <= 0 ==> r == RemoveLine(cart, productId)
    ensures productId in cart && quantity > 0 ==>
      r.Keys == cart.Keys && r[productId] == cart[productId].(quantity := quantity) &&
      forall k :: k in cart && k != productId ==> r[k] == cart[k]
  {
    if productId !in cart then cart
    else if quantity <= 0 then RemoveLine(cart, productId)
    else cart[productId := cart[productId].(quantity := quantity)]
  }

  /** Each line is stored under its own product id. */
  predicate KeyedById(cart: LocalCart) {
    forall k :: k in cart ==> cart[k].id == k
  }

  predicate AllPositive(cart: LocalCart) {
    forall k :: k in cart ==> cart[k].quantity >= 1
  }

  /** The abstract cart: product id to quantity and unit price. */
  function Project(cart: LocalCart): (lines: CartSpec.Lines)
    ensures lines.Keys == cart.Keys && |lines| == |cart|
    ensures forall k :: k in cart ==> lines[k] == CartSpec.Line(cart[k].quantity, cart[k].price)
  {
    map k | k in cart :: CartSpec.Line(cart[k].quantity, cart[k].price)
  }

  /** Adding locally is the abstract add. */
  lemma ProjectAddLine(cart: LocalCart, productId: int, name: string, price: real, quantity: int)
    ensures Project(AddLine(cart, productId, name, price, quantity)) == CartSpec.Added(Project(cart), productId, quantity, price)
  {
    var l := Project(AddLine(cart, productId, name, price, quantity));
    var r := CartSpec.Added(Project(cart), productId, quantity, price);
    assert l.Keys == r.Keys;
    forall k | k in l ensures l[k] == r[k] {
      if k == productId && productId in cart {
        assert l[k] == CartSpec.Line(cart[k].quantity + quantity, cart[k].price);
      }
    }
  }

  /** Removing locally is the abstract removal. */
  lemma ProjectRemoveLine(cart: LocalCart, productId: int)
    ensures Project(RemoveLine(cart, productId)) == CartSpec.Removed(Project(cart), productId)
  {
    var l := Project(RemoveLine(cart, productId));
    var r := CartSpec.Removed(Project(cart), productId);
    assert l.Keys == r.Keys;
  }

  /** Setting a positive quantity locally is the abstract quantity update. */
  lemma ProjectSetLineQuantity(cart: LocalCart, productId: int, quantity: int)
    requires productId in cart && quantity > 0
    ensures Project(SetLineQuantity(cart, productId, quantity)) == CartSpec.QuantitySet(Project(cart), productId, quantity)
  {
    var l := Project(SetLineQuantity(cart, productId, quantity));
    var r := CartSpec.QuantitySet(Project(cart), productId, quantity);
    assert l.Keys == r.Keys;
    forall k | k in l ensures l[k] == r[k] {
    }
  }

  /** The cart operations keep every line under its own id and keep quantities positive. */
  lemma OperationsKeepInvariants(cart: LocalCart, productId: int, name: string, price: real, quantity: int)
    requires KeyedById(cart) && AllPositive(cart)
    ensures KeyedById(AddLine(cart, productId, name, price, quantity))
    ensures quantity >= 1 ==> AllPositive(AddLine(cart, productId, name, price, quantity))
    ensures KeyedById(RemoveLine(cart, productId)) && AllPositive(RemoveLine(cart, productId))
    ensures KeyedById(SetLineQuantity(cart, productId, quantity)) && AllPositive(SetLineQuantity(cart, productId, quantity))
  {
  }

  /**
   * The badge shows the number of distinct products. With every line holding
   * at least one unit this never exceeds the number of units, and equals it
   * exactly when each line holds a single unit.
   */
  lemma BadgeCountsProducts(cart: LocalCart)
    requires AllPositive(cart)
    ensures |cart| as real <= CartSpec.Units(Project(cart))
    ensures |cart| as real == CartSpec.Units(Project(cart)) <==> forall k :: k in cart ==> cart[k].quantity == 1
  {
    CartSpec.DistinctAtMostUnits(Project(cart));
    CartSpec.DistinctEqualsUnitsIff(Project(cart));
  }

  /**
   * Local storage holding the `cart` JSON object, and the `#cart-count`
   * badge that `updateCartCount` keeps in step with it.
   */
  class CartStorage {
    /** `localStorage.getItem('cart')`, parsed; `None` when nothing is stored. */
    var blob: Option<LocalCart>
    /** The number shown in the page's cart badge. */
    var badge: int

    /** `getCart()`'s view: a missing entry reads as the empty object. */
    ghost function Contents(): LocalCart
      reads this
    {
      if blob.Some? then blob.value else map[]
    }

    ghost predicate Valid()
      reads this
    {
      badge == |Contents()|
    }

    /** Page load: storage as found, then `updateCartCount()` on DOMContentLoaded. */
    constructor (stored: Option<LocalCart>)
      ensures blob == stored && Valid()
    {
      blob := stored;
      badge := if stored.Some? then |stored.value| else 0;
    }

    method GetCart() returns (cart: LocalCart)
      ensures cart == Contents()
    {
      cart := if blob.Some? then blob.value else map[];
    }

    method UpdateCartCount()
      modifies this`badge
      ensures badge == |Contents()|
    {
      var cart := GetCart();
      badge := |cart|;
    }

    method SaveCart(cart: LocalCart)
      modifies this
      ensures blob == Some(cart) && Valid()
    {
      blob := Some(cart);
      UpdateCartCount();
    }

    method AddToCart(productId: int, name: string, price: real, quantity: Option<int>)
      modifies this
      ensures blob.Some? && Valid()
      ensures Contents() == AddLine(old(Contents()), productId, name, price, QuantityOrDefault(quantity))
    {
      var q := QuantityOrDefault(quantity);
      var cart := GetCart();
      if productId in cart {
        cart := cart[productId := cart[productId].(quantity := cart[productId].quantity + q)];
      } else {
        cart := cart[productId := LocalLine(productId, name, price, q)];
      }
      SaveCart(cart);
    }

    method RemoveFromCart(productId: int)
      modifies this
      ensures blob.Some? && Valid()
      ensures Contents() == RemoveLine(old(Contents()), productId)
    {
      var cart := GetCart();
      cart := cart - {productId};
      SaveCart(cart);
    }

    method UpdateCartItemQuantity(productId: int, quantity: int)
      modifies this
      ensures Contents() == SetLineQuantity(old(Contents()), productId, quantity)
      ensures productId !in old(Contents()) ==> blob == old(blob) && badge == old(badge)
      ensures productId in old(Contents()) ==> blob.Some? && Valid()
    {
      var cart := GetCart();
      if productId in cart {
        if quantity <= 0 {
          RemoveFromCart(productId);
        } else {
          cart := cart[productId := cart[productId].(quantity := quantity)];
          SaveCart(cart);
        }
      }
    }
  }
}
