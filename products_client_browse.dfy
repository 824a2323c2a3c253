/**
 * The products service's browse page (products_app/static/js/products.js):
 * a product card's quantity box and its steppers, the add button and the
 * category filter.
 */
module ProductsClientBrowse {
  import opened Common
  import opened ProductsClientApi

  /**
   * A card's initial quantity, `cart[product.id]?.quantity || 0`: the local
   * cart's quantity for that product, else 0.
   */
  function InitialQuantity(cart: LocalCart, productId: int): (q: int)
    ensures productId in cart ==> q == cart[productId].quantity
    ensures productId !in cart ==> q == 0
  {
    if productId in cart then cart[productId].quantity else 0
  }

  /** A card's quantity box; its `value` is text. */
  class QuantityBox {
    var value: string

    constructor (initial: int)
      ensures value == IntToString(initial)
    {
      value := IntToString(initial);
    }

    /** `increaseQuantity`: `parseInt(value) || 0`, plus one, with no upper bound. */
    method Increase()
      modifies this
      ensures value == IntToString(IntOrZero(old(value)) + 1)
    {
      var quantity := IntOrZero(value);
      quantity := quantity + 1;
      value := IntToString(quantity);
    }

    /** `decreaseQuantity`: one less, but only from a positive number. */
    method Decrease()
      modifies this
      ensures value == IntToString(if IntOrZero(old(value)) > 0 then IntOrZero(old(value)) - 1 else IntOrZero(old(value)))
    {
      var quantity := IntOrZero(value);
      if quantity > 0 {
        quantity := quantity - 1;
      }
      value := IntToString(quantity);
    }
  }

  /** After a step the box reads back as the stepped number. */
  lemma StepsReadBack(text: string)
    ensures IntOrZero(IntToString(IntOrZero(text) + 1)) == IntOrZero(text) + 1
    ensures var q := IntOrZero(text);
      IntOrZero(IntToString(if q > 0 then q - 1 else q)) == (if q > 0 then q - 1 else q)
  {
    var q := IntOrZero(text);
    ParseIntOfIntToString(q + 1);
    ParseIntOfIntToString(if q > 0 then q - 1 else q);
  }

  /** Stepping down from a box that holds no negative number never goes below 0. */
  lemma DecreaseStaysNonNegative(text: string)
    requires IntOrZero(text) >= 0
    ensures var q := IntOrZero(text);
      IntOrZero(IntToString(if q > 0 then q - 1 else q)) >= 0
  {
    StepsReadBack(text);
  }

  /**
   * `addProductToCart`: a box reading 0 or less (or not a number) adds
   * nothing; otherwise that many units go into the local cart and the box
   * is reset to 0.
   */
  method AddProductToCart(storage: CartStorage, box: QuantityBox, productId: int, name: string, price: real)
    returns (added: bool)
    modifies storage, box
    ensures added <==> IntOrZero(old(box.value)) > 0
    ensures !added ==> storage.blob == old(storage.blob) && storage.badge == old(storage.badge) && box.value == old(box.value)
    ensures added ==>
      storage.Contents() == AddLine(old(storage.Contents()), productId, name, price, IntOrZero(old(box.value))) &&
      storage.Valid() && box.value == "0"
  {
    var quantity := IntOrZero(box.value);
    if quantity <= 0 {
      return false;
    }
    storage.AddToCart(productId, name, price, Some(quantity));
    box.value := "0";
    added := true;
  }

  /** `selectCategory`: `categoryId || null`; a falsy id means every product. */
  function CategoryFilter(categoryId: Option<int>): (f: Option<int>)
    ensures f.Some? <==> categoryId.Some? && categoryId.value != 0
    ensures f.Some? ==> f == categoryId
  {
    if categoryId.Some? && categoryId.value != 0 then categoryId else None
  }

  /** Selecting "All Products" (or a falsy id) requests the unfiltered list. */
  lemma SelectFalsyLoadsAll(categoryId: Option<int>)
    requires categoryId.None? || categoryId.value == 0
    ensures ProductsEndpoint(CategoryFilter(categoryId)) == "/api/products/product"
  {
  }
}
