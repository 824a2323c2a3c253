/**
 * The auth service's browse page (accounts/static/js/products.js): the
 * category buttons, the product cards with their out-of-stock rule, the
 * stock-bounded quantity steppers, the add button backed by the cart
 * service, and the category filter.
 */
module AuthBrowsePage {
  import opened Common
  import opened AuthClientApi
  import ProductsClientApi
  import ProductsClientBrowse

  /** One category as the products service lists it. */
  datatype CategoryJson = CategoryJson(id: int, name: string)

  /** A category button: its text and the id it selects (`None` for all products). */
  datatype CategoryButton = CategoryButton(text: string, categoryId: Option<int>)

  /** The buttons for the categories: 'All Products' first, then one per category in order. */
  function ButtonsOf(categories: seq<CategoryJson>): (r: seq<CategoryButton>)
    ensures |r| == |categories| + 1
    ensures r[0] == CategoryButton("All Products", None)
    ensures forall i :: 0 <= i < |categories| ==> r[i + 1] == CategoryButton(categories[i].name, Some(categories[i].id))
  {
    if categories == [] then [CategoryButton("All Products", None)]
    else
      var last := categories[|categories| - 1];
      ButtonsOf(categories[..|categories| - 1]) + [CategoryButton(last.name, Some(last.id))]
  }

  function ThrownCategories(message: string): seq<CategoryJson> {
    []
  }

  /** `loadCategories`: on success the buttons are rebuilt; on failure nothing changes. */
  method LoadCategories(reply: Reply<seq<CategoryJson>>) returns (buttons: Option<seq<CategoryButton>>)
    ensures !ApiCall(reply, ThrownCategories).success ==> buttons.None?
    ensures ApiCall(reply, ThrownCategories).success ==> buttons == Some(ButtonsOf(ApiCall(reply, ThrownCategories).data))
  {
    var result := ApiCall(reply, ThrownCategories);
    if !result.success {
      return None;
    }
    var categories := result.data;
    var list := [CategoryButton("All Products", None)];
    var i := 0;
    while i < |categories|
      invariant 0 <= i <= |categories|
      invariant list == ButtonsOf(categories[..i])
    {
      assert categories[..i + 1][..i] == categories[..i];
      list := list + [CategoryButton(categories[i].name, Some(categories[i].id))];
      i := i + 1;
    }
    assert categories[..i] == categories;
    buttons := Some(list);
  }

  /** One product as the products service lists it. */
  datatype ProductJson = ProductJson(id: int, name: string, price: real, stock: int, description: string, image: string)

  /** A card: the image (if any), the name, the description and, unless out of stock, the steppers' bound. */
  datatype ProductCard = ProductCard(
    productId: int, image: Option<string>, name: string, price: real, description: string, maxStock: Option<int>)

  /**
   * `createProductCard`: a product is out of stock exactly when its stock is
   * 0, and then it has no quantity controls; otherwise the steppers are
   * bounded by the stock.
   */
  function CardOf(p: ProductJson): (c: ProductCard)
    ensures c.maxStock.None? <==> p.stock == 0
    ensures c.maxStock.Some? ==> c.maxStock.value == p.stock
    ensures c.description == if p.description != "" then p.description else "No description available"
    ensures c.image.Some? <==> p.image != ""
    ensures c.productId == p.id && c.name == p.name && c.price == p.price
  {
    ProductCard(p.id, if p.image != "" then Some(p.image) else None, p.name, p.price,
                if p.description != "" then p.description else "No description available",
                if p.stock == 0 then None else Some(p.stock))
  }

  function ThrownProducts(message: string): seq<ProductJson> {
    []
  }

  /** What `loadProducts` shows. */
  datatype BrowseView = LoadError(notice: string) | NoProducts | Cards(cards: seq<ProductCard>)

  /**
   * What `loadProducts` shows for a reply: a failed load is announced; an
   * empty list shows 'No products available'; otherwise one card per
   * product, in order.
   */
  function BrowseViewOf(reply: Reply<seq<ProductJson>>): (v: BrowseView)
    ensures v.LoadError? <==> !ApiCall(reply, ThrownProducts).success
    ensures v.LoadError? ==> v.notice == "Error loading products"
    ensures v == NoProducts <==> ApiCall(reply, ThrownProducts).success && ApiCall(reply, ThrownProducts).data == []
    ensures v.Cards? ==> v.cards == Map(CardOf, ApiCall(reply, ThrownProducts).data)
  {
    var e := ApiCall(reply, ThrownProducts);
    if !e.success then LoadError("Error loading products")
    else if |e.data| == 0 then NoProducts
    else Cards(Map(CardOf, e.data))
  }

  /** `loadProducts`: the `forEach` that appends one card per product. */
  method LoadProducts(reply: Reply<seq<ProductJson>>) returns (view: BrowseView)
    ensures view == BrowseViewOf(reply)
  {
    var result := ApiCall(reply, ThrownProducts);
    if !result.success {
      return LoadError("Error loading products");
    }
    var products := result.data;
    if |products| == 0 {
      return NoProducts;
    }
    var cards: seq<ProductCard> := [];
    var i := 0;
    while i < |products|
      invariant 0 <= i <= |products|
      invariant cards == Map(CardOf, products[..i])
    {
      assert products[..i + 1][..i] == products[..i];
      cards := cards + [CardOf(products[i])];
      i := i + 1;
    }
    assert products[..i] == products;
    view := Cards(cards);
  }

  /** The box after `increaseQuantity`: one more while below the stock, else unchanged. */
  function Increased(text: string, maxStock: int): string {
    var q := IntOrZero(text);
    if q < maxStock then IntToString(q + 1) else text
  }

  /**
   * `increaseQuantity`: `parseInt(value) || 0`; below the stock the box
   * goes up by one, otherwise it is left as it is and the maximum is
   * announced.
   */
  method IncreaseQuantity(box: ProductsClientBrowse.QuantityBox, maxStock: int) returns (notice: Option<string>)
    modifies box
    ensures box.value == Increased(old(box.value), maxStock)
    ensures notice.Some? <==> IntOrZero(old(box.value)) >= maxStock
    ensures notice.Some? ==> notice.value == "Maximum stock available: " + IntToString(maxStock)
  {
    var quantity := IntOrZero(box.value);
    if quantity < maxStock {
      quantity := quantity + 1;
      box.value := IntToString(quantity);
      notice := None;
    } else {
      notice := Some("Maximum stock available: " + IntToString(maxStock));
    }
  }

  /**
   * The bounded stepper never takes the box past the stock, and below the
   * stock it adds exactly one.
   */
  lemma IncreaseNeverExceedsStock(text: string, maxStock: int)
    ensures IntOrZero(text) <= maxStock ==> IntOrZero(Increased(text, maxStock)) <= maxStock
    ensures IntOrZero(text) < maxStock ==> IntOrZero(Increased(text, maxStock)) == IntOrZero(text) + 1
    ensures IntOrZero(text) >= maxStock ==> Increased(text, maxStock) == text
  {
    ParseIntOfIntToString(IntOrZero(text) + 1);
  }

  /**
   * A card's box starts at 0 and the card's bound is the product's stock,
   * so any number of presses of '+' keeps it within the stock.
   */
  lemma StepperStaysWithinStock(p: ProductJson, text: string)
    requires CardOf(p).maxStock.Some? && IntOrZero(text) <= p.stock
    ensures IntOrZero(Increased(text, CardOf(p).maxStock.value)) <= p.stock
  {
    IncreaseNeverExceedsStock(text, p.stock);
  }

  /**
   * `addProductToCart`: 0 or less (or not a number) sends nothing and asks
   * for a quantity; otherwise the add goes to the cart service, its notice
   * ('<name> added to cart!' or 'Failed to add to cart') is shown, and the
   * box is reset to 0.
   */
  method AddProductToCart(client: Client, box: ProductsClientBrowse.QuantityBox, productId: int, productName: string, price: real,
                          addReply: Reply<CartPayload>, cartReply: Reply<CartPayload>)
    returns (sent: Option<RequestOptions<AddRequest>>, notice: Option<string>)
    modifies box, client`cartCount
    ensures IntOrZero(old(box.value)) <= 0 ==>
      sent.None? && notice == Some("Please select a quantity") &&
      box.value == old(box.value) && client.cartCount == old(client.cartCount)
    ensures IntOrZero(old(box.value)) > 0 ==>
      notice == Some(if ApiCall(addReply, ThrownCart).success then productName + " added to cart!" else "Failed to add to cart") &&
      sent.Some? && sent.value.httpMethod == "POST" &&
      sent.value.body == Some(AddRequest(productId, IntOrZero(old(box.value)), price)) &&
      box.value == "0" &&
      client.RefreshedBadge(ApiCall(addReply, ThrownCart).success, cartReply, old(client.cartCount), client.cartCount)
  {
    var quantity := IntOrZero(box.value);
    if quantity <= 0 {
      return None, Some("Please select a quantity");
    }
    var options, _, _, added := client.AddToCart(productId, productName, price, quantity, addReply, cartReply);
    box.value := "0";
    sent, notice := Some(options), Some(added);
  }

  /**
   * `selectCategory`: the filter is `categoryId || null`, the same mapping
   * as on the products service's page, and the products list is requested
   * with it.
   */
  method SelectCategory(categoryId: Option<int>) returns (current: Option<int>, endpoint: string)
    ensures current == ProductsClientBrowse.CategoryFilter(categoryId)
    ensures endpoint == ProductsClientApi.ProductsEndpoint(current)
    ensures categoryId.None? || categoryId.value == 0 ==> current.None? && endpoint == "/api/products/product"
  {
    current := ProductsClientBrowse.CategoryFilter(categoryId);
    endpoint := ProductsClientApi.ProductsEndpoint(current);
  }

  /** Mapping a falsy id to null first changes nothing about the request `getProducts` makes. */
  lemma FilterThenEndpoint(categoryId: Option<int>)
    ensures ProductsClientApi.ProductsEndpoint(ProductsClientBrowse.CategoryFilter(categoryId)) ==
            ProductsClientApi.ProductsEndpoint(categoryId)
  {
  }
}
