/**
 * The products service's stock endpoint (products_app/stock_views.py), which
 * the order service calls to write a product's stock.
 */
module StockViews {
  import opened Common
  import opened ProductsViews

  /**
   * The stock endpoint's bodies: the view's own `{message, stock}` and
   * `{error}`, and the framework's `{detail}` refusal of a caller without
   * credentials, which the view never sees.
   */
  datatype StockBody = StockUpdated(message: string, stock: int) | StockError(error: string) | Denied(detail: string)

  datatype StockReply = StockReply(status: int, body: StockBody)

  /** The framework's refusal of a caller without credentials (`IsAuthenticated`). */
  const NotAuthenticated: string := "Authentication credentials were not provided."

  /**
   * `update_stock`: a caller without credentials is refused with 401 before
   * the view runs; then an unknown product is 404 (looked up first); a
   * missing `stock` value is 400; otherwise the stock is overwritten with
   * exactly the given value and echoed back. No other product and no other
   * field changes.
   */
  method UpdateStock(catalog: Catalog, authenticated: bool, productId: int, stock: Option<int>) returns (reply: StockReply)
    requires catalog.Valid()
    modifies catalog
    ensures catalog.Valid()
    ensures catalog.categories == old(catalog.categories)
    ensures catalog.nextCategoryId == old(catalog.nextCategoryId) && catalog.nextProductId == old(catalog.nextProductId)
    ensures !authenticated ==>
      reply == StockReply(401, Denied(NotAuthenticated)) && catalog.products == old(catalog.products)
    ensures authenticated && productId !in old(catalog.products) ==>
      reply == StockReply(404, StockError("Product not found")) && catalog.products == old(catalog.products)
    ensures authenticated && productId in old(catalog.products) && stock.None? ==>
      reply == StockReply(400, StockError("Stock value required")) && catalog.products == old(catalog.products)
    ensures authenticated && productId in old(catalog.products) && stock.Some? ==>
      catalog.products == old(catalog.products)[productId := old(catalog.products)[productId].(stock := stock.value)] &&
      reply == StockReply(200, StockUpdated("Stock updated", catalog.products[productId].stock))
  {
    if !authenticated {
      return StockReply(401, Denied(NotAuthenticated));
    }
    if productId !in catalog.products {
      return StockReply(404, StockError("Product not found"));
    }
    var product := catalog.products[productId];
    if stock.None? {
      return StockReply(400, StockError("Stock value required"));
    }
    product := product.(stock := stock.value);
    catalog.products := catalog.products[productId := product];
    reply := StockReply(200, StockUpdated("Stock updated", product.stock));
  }
}
