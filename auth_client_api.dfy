/**
 * The auth service's browser helper (accounts/static/js/api.js): the stored
 * token, how a request's headers and body are put together, the response
 * envelope, the catalog wrappers' error text, and the cart calls that keep
 * the header's cart badge up to date.
 */
module AuthClientApi {
  import opened Common
  import ProductsClientApi
  import CartModels
  import CartSerializers

  // ---------------------------------------------------------------------------
  // Requests and the envelope
  // ---------------------------------------------------------------------------

  /** The `options` object handed to `fetch`. */
  datatype RequestOptions<D> = RequestOptions(httpMethod: string, headers: map<string, string>, body: Option<D>)

  /** What `apiCall` resolves to: `{status, success, data}`. */
  datatype Envelope<D> = Envelope(status: int, success: bool, data: D)

  /**
   * `apiCall` after the fetch: a parsed body is passed through with
   * `success = response.ok`; a fetch that throws, or a body that is not JSON,
   * is caught and becomes status 0, no success, and `{error: message}`
   * (built by `thrown`).
   */
  function ApiCall<D>(reply: Reply<D>, thrown: string -> D): (e: Envelope<D>)
    ensures reply.Replied? ==> e == Envelope(reply.status, IsOk(reply.status), reply.body)
    ensures !reply.Replied? ==> e == Envelope(0, false, thrown(reply.reason))
    ensures e.success <==> reply.Replied? && IsOk(reply.status)
  {
    match reply
    case Replied(status, body) => Envelope(status, IsOk(status), body)
    case NotJson(_, reason) => Envelope(0, false, thrown(reason))
    case NoResponse(reason) => Envelope(0, false, thrown(reason))
  }

  /**
   * Unlike the products page's helper, this one has no 204 branch: a
   * no-content reply without a JSON body counts as a failure with status 0
   * here, and as a success there.
   */
  lemma NoContentDiffers<D>(reason: string, thrown: string -> D, errorOf: D -> string, messageOf: D -> string)
    ensures ApiCall(NotJson(204, reason), thrown) == Envelope(0, false, thrown(reason))
    ensures ProductsClientApi.ApiCall(NotJson(204, reason), errorOf, messageOf) == ProductsClientApi.Succeeded(None)
  {
  }

  // ---------------------------------------------------------------------------
  // The catalog wrappers
  // ---------------------------------------------------------------------------

  /** The nine catalog calls of the helper. */
  datatype CatalogOp =
    | GetCategories | CreateCategory | UpdateCategory | DeleteCategory
    | GetProducts | GetProductById | CreateProduct | UpdateProduct | DeleteProduct

  /** Each wrapper's fixed message when the body carries no `error`. */
  function DefaultError(op: CatalogOp): string {
    match op
    case GetCategories => "Failed to load categories"
    case CreateCategory => "Failed to create category"
    case UpdateCategory => "Failed to update category"
    case DeleteCategory => "Failed to delete category"
    case GetProducts => "Failed to load products"
    case GetProductById => "Failed to load product"
    case CreateProduct => "Failed to create product"
    case UpdateProduct => "Failed to update product"
    case DeleteProduct => "Failed to delete product"
  }

  /** Reads are public; every write sends the token. */
  predicate RequiresAuth(op: CatalogOp) {
    !(op == GetCategories || op == GetProducts || op == GetProductById)
  }

  /** A wrapper's result: `{success, data, error}`. */
  datatype WrapperResult<D> = WrapperResult(success: bool, data: D, error: string)

  /** `error: response.data.error || '<default>'`, with success and data passed through. */
  function Wrap<D>(op: CatalogOp, e: Envelope<D>, errorOf: D -> string): (r: WrapperResult<D>)
    ensures r.success == e.success && r.data == e.data
    ensures errorOf(e.data) != "" ==> r.error == errorOf(e.data)
    ensures errorOf(e.data) == "" ==> r.error == DefaultError(op)
  {
    WrapperResult(e.success, e.data, if errorOf(e.data) != "" then errorOf(e.data) else DefaultError(op))
  }

  /**
   * A wrapper always reports a non-empty error; for a call that threw, it is
   * the exception's message when there is one.
   */
  lemma WrapperErrorAlwaysSet<D>(op: CatalogOp, reply: Reply<D>, thrown: string -> D, errorOf: D -> string)
    requires !reply.Replied? ==> errorOf(thrown(reply.reason)) == reply.reason
    ensures Wrap(op, ApiCall(reply, thrown), errorOf).error != ""
    ensures !reply.Replied? && reply.reason != "" ==> Wrap(op, ApiCall(reply, thrown), errorOf).error == reply.reason
    ensures !Wrap(op, ApiCall(reply, thrown), errorOf).success <==> !reply.Replied? || !IsOk(reply.status)
  {
  }

  // ---------------------------------------------------------------------------
  // The browser side: token and cart badge
  // ---------------------------------------------------------------------------

  /** A body from the cart service: its `items`, if any, and its `error` text. */
  datatype CartPayload = CartPayload(items: Option<seq<CartEntry>>, error: string)

  /** The `{error: message}` object of a call that threw. */
  function ThrownCart(message: string): CartPayload {
    CartPayload(None, message)
  }

  /** `{product_id, quantity, price}`, the body of an add. */
  datatype AddRequest = AddRequest(productId: int, quantity: int, price: real)

  /** `{quantity}`, the body of a quantity update. */
  datatype QuantityRequest = QuantityRequest(quantity: int)

  /** The body type of a request sent without one (a DELETE). */
  datatype NoBody = NoBody

  /** The items `getCart` resolves to, for a stored token and the cart service's reply. */
  function FetchedItems(token: Option<string>, reply: Reply<CartPayload>): seq<CartEntry> {
    if token.Some? && token.value != "" && ApiCall(reply, ThrownCart).success then
      (if reply.body.items.Some? then reply.body.items.value else [])
    else []
  }

  /** `items.reduce((sum, item) => sum + item.quantity, 0)`: the badge counts units. */
  function CartCount(items: seq<CartEntry>): (n: int)
    ensures items == [] ==> n == 0
    ensures (forall i :: 0 <= i < |items| ==> items[i].quantity >= 0) ==> n >= 0
  {
    EntriesUnitsNonNegative(items);
    EntriesUnits(items)
  }

  lemma {:induction false} EntriesUnitsNonNegative(items: seq<CartEntry>)
    ensures (forall i :: 0 <= i < |items| ==> items[i].quantity >= 0) ==> EntriesUnits(items) >= 0
  {
    if items != [] {
      EntriesUnitsNonNegative(items[..|items| - 1]);
    }
  }

  /** The browser's stored token and the cart badge in the page header. */
  class Client {
    /** `localStorage.getItem('token')`. */
    var token: Option<string>
    /** The badge's number, `None` until something writes it. */
    var cartCount: Option<int>

    constructor (stored: Option<string>)
      ensures token == stored && cartCount == None
    {
      token := stored;
      cartCount := None;
    }

    /** `setToken`. */
    method SetToken(t: string)
      modifies this`token
      ensures token == Some(t)
    {
      token := Some(t);
    }

    /** `removeToken`. */
    method RemoveToken()
      modifies this`token
      ensures token == None
    {
      token := None;
    }

    /** `isAuthenticated`: a token is stored, even a blank one. */
    method IsAuthenticated() returns (b: bool)
      ensures b <==> token.Some?
    {
      b := token.Some?;
    }

    /**
     * The request `apiCall` sends: a JSON content type; `Token <trimmed>`
     * when authentication is asked for and the trimmed token is not blank;
     * a JSON body only for a POST or PUT that has data.
     */
    method Options<D>(httpMethod: string, data: Option<D>, requiresAuth: bool) returns (opts: RequestOptions<D>)
      ensures opts.httpMethod == httpMethod
      ensures "Content-Type" in opts.headers && opts.headers["Content-Type"] == "application/json"
      ensures "Authorization" in opts.headers <==> requiresAuth && token.Some? && Trim(token.value) != ""
      ensures "Authorization" in opts.headers ==> opts.headers["Authorization"] == "Token " + Trim(token.value)
      ensures opts.headers.Keys <= {"Content-Type", "Authorization"}
      ensures opts.body.Some? <==> data.Some? && (httpMethod == "POST" || httpMethod == "PUT")
      ensures opts.body.Some? ==> opts.body == data
    {
      var headers := map["Content-Type" := "application/json"];
      if requiresAuth {
        var t := token;
        if t.Some? && t.value != "" && Trim(t.value) != "" {
          headers := headers["Authorization" := "Token " + Trim(t.value)];
        }
      }
      var body: Option<D> := None;
      if data.Some? && (httpMethod == "POST" || httpMethod == "PUT") {
        body := data;
      }
      opts := RequestOptions(httpMethod, headers, body);
    }

    /** `updateCartCountFromItems`. */
    method UpdateCartCountFromItems(items: seq<CartEntry>)
      modifies this`cartCount
      ensures cartCount == Some(CartCount(items))
    {
      cartCount := Some(CartCount(items));
    }

    /**
     * `getCart`: without a (truthy) token nothing is requested and the cart
     * is empty; a failed call gives an empty cart; a successful one gives
     * the body's `items`, or none, and writes the badge unless asked not to.
     */
    method GetCart(reply: Reply<CartPayload>, skipCountUpdate: bool) returns (items: seq<CartEntry>, requested: bool)
      modifies this`cartCount
      ensures requested <==> token.Some? && token.value != ""
      ensures items == FetchedItems(token, reply)
      ensures !requested || !ApiCall(reply, ThrownCart).success ==> items == [] && cartCount == old(cartCount)
      ensures requested && ApiCall(reply, ThrownCart).success ==>
        items == (if reply.body.items.Some? then reply.body.items.value else []) &&
        cartCount == (if skipCountUpdate then old(cartCount) else Some(CartCount(items)))
    {
      if token.None? || token.value == "" {
        return [], false;
      }
      requested := true;
      var response := ApiCall(reply, ThrownCart);
      if !response.success {
        return [], true;
      }
      items := if response.data.items.Some? then response.data.items.value else [];
      if !skipCountUpdate {
        UpdateCartCountFromItems(items);
      }
    }

    /**
     * `addToCart`: the add is posted with the token; only when it succeeds is
     * the cart fetched again, which rewrites the badge. Either way a notice
     * tells the outcome.
     */
    method AddToCart(productId: int, productName: string, price: real, quantity: int,
                     addReply: Reply<CartPayload>, cartReply: Reply<CartPayload>)
      returns (sent: RequestOptions<AddRequest>, response: Envelope<CartPayload>, refreshed: bool, notice: string)
      modifies this`cartCount
      ensures sent.httpMethod == "POST" && sent.body == Some(AddRequest(productId, quantity, price))
      ensures "Authorization" in sent.headers <==> token.Some? && Trim(token.value) != ""
      ensures response == ApiCall(addReply, ThrownCart)
      ensures refreshed <==> response.success
      ensures notice == if response.success then productName + " added to cart!" else "Failed to add to cart"
      ensures RefreshedBadge(refreshed, cartReply, old(cartCount), cartCount)
    {
      sent := Options("POST", Some(AddRequest(productId, quantity, price)), true);
      response := ApiCall(addReply, ThrownCart);
      refreshed := response.success;
      notice := if refreshed then productName + " added to cart!" else "Failed to add to cart";
      if refreshed {
        var _, _ := GetCart(cartReply, false);
      }
    }

    /** `updateCartItemQuantity`: the new quantity is sent with the token; the badge is left as it is. */
    method UpdateCartItemQuantity(quantity: int, reply: Reply<CartPayload>)
      returns (sent: RequestOptions<QuantityRequest>, response: Envelope<CartPayload>)
      ensures sent.httpMethod == "PUT" && sent.body == Some(QuantityRequest(quantity))
      ensures "Authorization" in sent.headers <==> token.Some? && Trim(token.value) != ""
      ensures response == ApiCall(reply, ThrownCart)
    {
      sent := Options("PUT", Some(QuantityRequest(quantity)), true);
      response := ApiCall(reply, ThrownCart);
    }

    /** `removeFromCart`: the deletion is sent; only a success refreshes the cart. */
    method RemoveFromCart(removeReply: Reply<CartPayload>, cartReply: Reply<CartPayload>)
      returns (sent: RequestOptions<NoBody>, response: Envelope<CartPayload>, refreshed: bool)
      modifies this`cartCount
      ensures sent.httpMethod == "DELETE" && sent.body == None
      ensures response == ApiCall(removeReply, ThrownCart)
      ensures refreshed <==> response.success
      ensures RefreshedBadge(refreshed, cartReply, old(cartCount), cartCount)
    {
      sent := Options("DELETE", None, true);
      response := ApiCall(removeReply, ThrownCart);
      refreshed := response.success;
      if refreshed {
        var _, _ := GetCart(cartReply, false);
      }
    }

    /** `clearCart`: the same as a removal, for the whole cart. */
    method ClearCart(clearReply: Reply<CartPayload>, cartReply: Reply<CartPayload>)
      returns (sent: RequestOptions<NoBody>, response: Envelope<CartPayload>, refreshed: bool)
      modifies this`cartCount
      ensures sent.httpMethod == "DELETE" && sent.body == None
      ensures response == ApiCall(clearReply, ThrownCart)
      ensures refreshed <==> response.success
      ensures RefreshedBadge(refreshed, cartReply, old(cartCount), cartCount)
    {
      sent := Options("DELETE", None, true);
      response := ApiCall(clearReply, ThrownCart);
      refreshed := response.success;
      if refreshed {
        var _, _ := GetCart(cartReply, false);
      }
    }

    /**
     * The badge after a cart call: unchanged unless the cart was fetched again,
     * the token allowed the fetch, and the fetch succeeded.
     */
    ghost predicate RefreshedBadge(refreshed: bool, cartReply: Reply<CartPayload>, before: Option<int>, after: Option<int>)
      reads this
    {
      if refreshed && token.Some? && token.value != "" && ApiCall(cartReply, ThrownCart).success then
        after == Some(CartCount(if cartReply.body.items.Some? then cartReply.body.items.value else []))
      else after == before
    }
  }

  // ---------------------------------------------------------------------------
  // The badge against the cart service's totals
  // ---------------------------------------------------------------------------

  /** One serialised cart item as the browser reads it. */
  function EntryOf(j: CartSerializers.ItemJson): CartEntry {
    CartEntry(j.id, j.productId, j.quantity, j.price)
  }

  function EntriesOf(js: seq<CartSerializers.ItemJson>): (es: seq<CartEntry>)
    ensures |es| == |js|
    ensures forall i :: 0 <= i < |js| ==> es[i] == EntryOf(js[i])
  {
    if js == [] then [] else [EntryOf(js[0])] + EntriesOf(js[1..])
  }

  lemma {:induction false} UnitsPrepend(e: CartEntry, es: seq<CartEntry>)
    ensures EntriesUnits([e] + es) == e.quantity + EntriesUnits(es)
  {
    if es != [] {
      var init := es[..|es| - 1];
      UnitsPrepend(e, init);
      assert ([e] + es)[..|es|] == [e] + init;
    } else {
      assert ([e] + es)[..0] == [];
    }
  }

  lemma {:induction false} SubtotalPrepend(e: CartEntry, es: seq<CartEntry>)
    ensures EntriesSubtotal([e] + es) == EntryTotal(e) + EntriesSubtotal(es)
  {
    if es != [] {
      var init := es[..|es| - 1];
      SubtotalPrepend(e, init);
      assert ([e] + es)[..|es|] == [e] + init;
    } else {
      assert ([e] + es)[..0] == [];
    }
  }

  /** The items the browser receives for a cart: the serialised rows, newest first. */
  function Received(items: seq<CartModels.CartItem>): seq<CartEntry> {
    EntriesOf(CartSerializers.SerializeItems(NewestFirst(items)))
  }

  lemma ReceivedSplit(items: seq<CartModels.CartItem>)
    requires items != []
    ensures Received(items) == [EntryOf(CartSerializers.SerializeItem(items[|items| - 1]))] + Received(items[..|items| - 1])
  {
  }

  /** The badge shows the cart service's `total_items`, although the browser sums the rows newest first. */
  lemma {:induction false} ReceivedUnits(items: seq<CartModels.CartItem>)
    ensures EntriesUnits(Received(items)) == CartSerializers.TotalItems(items)
  {
    if items != [] {
      var init := items[..|items| - 1];
      ReceivedUnits(init);
      ReceivedSplit(items);
      UnitsPrepend(EntryOf(CartSerializers.SerializeItem(items[|items| - 1])), Received(init));
    }
  }

  /** A received row totals what the cart service's row does. */
  lemma EntryOfTotal(item: CartModels.CartItem)
    ensures EntryTotal(EntryOf(CartSerializers.SerializeItem(item))) == CartModels.ItemTotal(item)
  {
    var e := EntryOf(CartSerializers.SerializeItem(item));
    assert e.price == item.price && e.quantity == item.quantity;
  }

  /** The pages' subtotal is the cart service's `total_price`. */
  lemma {:induction false} ReceivedSubtotal(items: seq<CartModels.CartItem>)
    ensures EntriesSubtotal(Received(items)) == CartSerializers.TotalPrice(items)
  {
    if items != [] {
      var init := items[..|items| - 1];
      var last := items[|items| - 1];
      var e := EntryOf(CartSerializers.SerializeItem(last));
      ReceivedSubtotal(init);
      ReceivedSplit(items);
      SubtotalPrepend(e, Received(init));
      EntryOfTotal(last);
      calc {
        EntriesSubtotal(Received(items));
        EntriesSubtotal([e] + Received(init));
        EntryTotal(e) + EntriesSubtotal(Received(init));
        CartModels.ItemTotal(last) + CartSerializers.TotalPrice(init);
        CartSerializers.TotalPrice(items);
      }
    }
  }

  /** The badge for a cart as the cart service returns it. */
  lemma BadgeMatchesTotalItems(cart: CartModels.Cart)
    ensures CartCount(EntriesOf(CartSerializers.SerializeCart(cart).items)) == CartSerializers.SerializeCart(cart).totalItems
  {
    ReceivedUnits(cart.items);
  }
}
