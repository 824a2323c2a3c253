/**
 * What the auth service's cart page (accounts/static/js/cart.js) and
 * checkout page (accounts/static/js/checkout.js) share: the per-page product
 * cache behind `fetchProductDetails`, and the loop that lists the cart's rows
 * and adds up their subtotal. Both files carry the same code.
 */
module AuthCartSummary {
  import opened Common

  /** What a product lookup yields for display: `{name, price}`. */
  datatype ProductInfo = ProductInfo(name: string, price: real)

  /** The stand-in for a product whose lookup fails: `{name: 'Product <id>', price: 0}`. */
  function Fallback(productId: int): ProductInfo {
    ProductInfo("Product " + IntToString(productId), 0.0)
  }

  /**
   * What `fetchProductDetails` yields for a product, given the cache and the
   * products whose lookup succeeds (`available`): the cached entry, else the
   * looked-up product, else the stand-in.
   */
  function DetailsFor(cache: map<int, ProductInfo>, available: map<int, ProductInfo>, productId: int): ProductInfo {
    if productId in cache then cache[productId]
    else if productId in available then available[productId]
    else Fallback(productId)
  }

  /** The cache only grows, and only with products whose lookup succeeded. */
  ghost predicate GrownFrom(now: map<int, ProductInfo>, before: map<int, ProductInfo>, available: map<int, ProductInfo>) {
    before.Keys <= now.Keys &&
    (forall p :: p in before ==> now[p] == before[p]) &&
    (forall p :: p in now && p !in before ==> p in available && now[p] == available[p])
  }

  /** A cache grown from the lookups answers every product as it did before it grew. */
  lemma DetailsStable(now: map<int, ProductInfo>, before: map<int, ProductInfo>, available: map<int, ProductInfo>, productId: int)
    requires GrownFrom(now, before, available)
    ensures DetailsFor(now, available, productId) == DetailsFor(before, available, productId)
  {
  }

  /** One more lookup keeps the cache grown from the lookups. */
  lemma GrowStep(now: map<int, ProductInfo>, before: map<int, ProductInfo>, available: map<int, ProductInfo>, productId: int)
    requires GrownFrom(now, before, available)
    ensures GrownFrom(if productId !in now && productId in available then now[productId := available[productId]] else now,
                      before, available)
  {
  }

  lemma SubtotalStep(items: seq<CartEntry>, i: nat)
    requires i < |items|
    ensures EntriesSubtotal(items[..i + 1]) == EntriesSubtotal(items[..i]) + EntryTotal(items[i])
  {
    assert items[..i + 1][..i] == items[..i];
  }

  /** A page's `productsCache`. */
  class ProductCache {
    var entries: map<int, ProductInfo>

    constructor ()
      ensures entries == map[]
    {
      entries := map[];
    }

    /**
     * `fetchProductDetails`: a cached product is returned without a request;
     * otherwise the product is looked up, and only a successful lookup is
     * cached.
     */
    method Fetch(productId: int, available: map<int, ProductInfo>) returns (p: ProductInfo, requested: bool)
      modifies this
      ensures requested <==> productId !in old(entries)
      ensures p == DetailsFor(old(entries), available, productId)
      ensures entries ==
        if productId !in old(entries) && productId in available then old(entries)[productId := available[productId]]
        else old(entries)
    {
      if productId in entries {
        return entries[productId], false;
      }
      requested := true;
      if productId in available {
        p := available[productId];
        entries := entries[productId := p];
      } else {
        p := Fallback(productId);
      }
    }
  }

  /** One listed row: the product's name, the cart's price and quantity, and the row total. */
  datatype SummaryRow = SummaryRow(name: string, price: real, quantity: int, total: real)

  /** The row listed for a cart item, given the cache before the listing started. */
  function RowFor(cache: map<int, ProductInfo>, available: map<int, ProductInfo>, item: CartEntry): SummaryRow {
    SummaryRow(DetailsFor(cache, available, item.productId).name, item.price, item.quantity, EntryTotal(item))
  }

  /** The rows listed for the items: one per item, in cart order. */
  function RowsFor(cache: map<int, ProductInfo>, available: map<int, ProductInfo>, items: seq<CartEntry>): (r: seq<SummaryRow>)
    ensures |r| == |items|
    ensures forall i :: 0 <= i < |items| ==> r[i] == RowFor(cache, available, items[i])
  {
    if items == [] then []
    else RowsFor(cache, available, items[..|items| - 1]) + [RowFor(cache, available, items[|items| - 1])]
  }

  lemma RowsStep(cache: map<int, ProductInfo>, available: map<int, ProductInfo>, items: seq<CartEntry>, i: nat)
    requires i < |items|
    ensures RowsFor(cache, available, items[..i + 1]) == RowsFor(cache, available, items[..i]) + [RowFor(cache, available, items[i])]
  {
    assert items[..i + 1][..i] == items[..i];
  }

  /**
   * One pass of the listing loop: the row for an item, named through the
   * cache. However far the cache has grown since `before`, the row is the one
   * the cache as it was at `before` gives.
   */
  method ListRow(cache: ProductCache, item: CartEntry, available: map<int, ProductInfo>, ghost before: map<int, ProductInfo>)
    returns (row: SummaryRow)
    requires GrownFrom(cache.entries, before, available)
    modifies cache
    ensures row == RowFor(before, available, item)
    ensures GrownFrom(cache.entries, before, available)
  {
    DetailsStable(cache.entries, before, available, item.productId);
    GrowStep(cache.entries, before, available, item.productId);
    var product, _ := cache.Fetch(item.productId, available);
    row := SummaryRow(product.name, item.price, item.quantity, EntryTotal(item));
  }

  /**
   * The listing loop of `loadCart` and `loadOrderSummary`: each row's name
   * comes from `fetchProductDetails`, but its price is the cart's; the
   * subtotal is Σ price × quantity over the rows.
   */
  method Summarise(cache: ProductCache, items: seq<CartEntry>, available: map<int, ProductInfo>)
    returns (rows: seq<SummaryRow>, subtotal: real)
    modifies cache
    ensures subtotal == EntriesSubtotal(items)
    ensures rows == RowsFor(old(cache.entries), available, items)
    ensures GrownFrom(cache.entries, old(cache.entries), available)
  {
    ghost var before := cache.entries;
    rows := [];
    subtotal := 0.0;
    var i := 0;
    while i < |items|
      invariant 0 <= i <= |items|
      invariant subtotal == EntriesSubtotal(items[..i])
      invariant rows == RowsFor(before, available, items[..i])
      invariant GrownFrom(cache.entries, before, available)
    {
      var row := ListRow(cache, items[i], available, before);
      SubtotalStep(items, i);
      RowsStep(before, available, items, i);
      subtotal := subtotal + row.total;
      rows := rows + [row];
      i := i + 1;
    }
    assert items[..i] == items;
  }
}
