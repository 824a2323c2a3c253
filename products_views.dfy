/**
 * The products service's catalog endpoints (products_app/views.py): reads
 * are public, writes need an authenticated admin, and the detail endpoints
 * answer 404 for an unknown id before anything else is looked at.
 */
module ProductsViews {
  import opened Common

  /** The request's user as the authentication layer reports it. */
  datatype User = User(authenticated: bool, staff: bool, superuser: bool)

  /**
   * The request method. `@api_view` always adds OPTIONS to the methods it
   * lists; `OtherMethod` stands for any method outside these five.
   */
  datatype HttpMethod = GET | POST | PUT | DELETE | OPTIONS | OtherMethod(name: string)

  /** `is_admin`: staff or superuser. */
  predicate IsAdmin(user: User) {
    user.staff || user.superuser
  }

  /**
   * The gate in front of every write: 401 for an anonymous caller, checked
   * before 403 for a signed-in caller who is not an admin.
   */
  function WriteGate(user: User): (r: Option<int>)
    ensures r == Some(401) <==> !user.authenticated
    ensures r == Some(403) <==> user.authenticated && !(user.staff || user.superuser)
    ensures r.None? <==> user.authenticated && (user.staff || user.superuser)
  {
    if !user.authenticated then Some(401)
    else if !IsAdmin(user) then Some(403)
    else None
  }

  /**
   * The status of `category_list_create` and of `product_list_create`'s
   * POST: GET is public; OPTIONS is answered by the framework with the
   * endpoint's metadata, for anyone; POST passes the write gate and then
   * answers 201 for a valid payload, 400 otherwise; any other method is
   * refused by the framework with 405.
   */
  function ListStatus(m: HttpMethod, user: User, valid: bool): (status: int)
    ensures m == GET || m == OPTIONS ==> status == 200
    ensures m == POST ==> status == (if !user.authenticated then 401 else if !IsAdmin(user) then 403 else if valid then 201 else 400)
    ensures status == 405 <==> m == PUT || m == DELETE || m.OtherMethod?
    ensures status == 201 <==> m == POST && user.authenticated && IsAdmin(user) && valid
  {
    if m == GET || m == OPTIONS then 200
    else if m == POST then
      match WriteGate(user)
      case Some(code) => code
      case None => if valid then 201 else 400
    else 405
  }

  /**
   * The status of `category_detail` and `product_detail`: the framework
   * answers OPTIONS with the endpoint's metadata before the view runs, so
   * with no lookup (200), and refuses other methods (405); then an unknown
   * id is 404 whoever asks; GET is public; PUT and DELETE pass the write
   * gate; PUT answers 400 for an invalid payload and 200 otherwise; DELETE
   * answers 204.
   */
  function DetailStatus(m: HttpMethod, user: User, exists_: bool, valid: bool): (status: int)
    ensures status == 405 <==> m.OtherMethod? || m == POST
    ensures status == 404 <==> (m == GET || m == PUT || m == DELETE) && !exists_
    ensures status == 401 <==> (m == PUT || m == DELETE) && exists_ && !user.authenticated
    ensures status == 403 <==> (m == PUT || m == DELETE) && exists_ && user.authenticated && !IsAdmin(user)
    ensures status == 400 <==> m == PUT && exists_ && user.authenticated && IsAdmin(user) && !valid
    ensures status == 200 <==>
      m == OPTIONS || (m == GET && exists_) || (m == PUT && exists_ && user.authenticated && IsAdmin(user) && valid)
    ensures status == 204 <==> m == DELETE && exists_ && user.authenticated && IsAdmin(user)
  {
    if m == OPTIONS then 200
    else if !(m == GET || m == PUT || m == DELETE) then 405
    else if !exists_ then 404
    else if m == GET then 200
    else
      match WriteGate(user)
      case Some(code) => code
      case None => if m == DELETE then 204 else if valid then 200 else 400
  }

  datatype Category = Category(name: string, description: string)

  datatype Product = Product(name: string, description: string, price: real, categoryId: int, stock: int)

  /** A PUT body: only the fields present are written (`partial=True`). */
  datatype CategoryPatch = CategoryPatch(name: Option<string>, description: Option<string>)

  datatype ProductPatch = ProductPatch(
    name: Option<string>, description: Option<string>, price: Option<real>,
    categoryId: Option<int>, stock: Option<int>)

  /** A partial update writes each given field and keeps every other one. */
  function PatchCategory(c: Category, patch: CategoryPatch): (r: Category)
    ensures r.name == ValueOr(patch.name, c.name) && r.description == ValueOr(patch.description, c.description)
    ensures patch == CategoryPatch(None, None) ==> r == c
  {
    Category(ValueOr(patch.name, c.name), ValueOr(patch.description, c.description))
  }

  function PatchProduct(p: Product, patch: ProductPatch): (r: Product)
    ensures r.name == ValueOr(patch.name, p.name) && r.description == ValueOr(patch.description, p.description)
    ensures r.price == ValueOr(patch.price, p.price) && r.categoryId == ValueOr(patch.categoryId, p.categoryId)
    ensures r.stock == ValueOr(patch.stock, p.stock)
    ensures patch == ProductPatch(None, None, None, None, None) ==> r == p
  {
    Product(ValueOr(patch.name, p.name), ValueOr(patch.description, p.description), ValueOr(patch.price, p.price),
            ValueOr(patch.categoryId, p.categoryId), ValueOr(patch.stock, p.stock))
  }

  /** Patching twice with the same body is patching once. */
  lemma PatchIdempotent(p: Product, patch: ProductPatch)
    ensures PatchProduct(PatchProduct(p, patch), patch) == PatchProduct(p, patch)
  {
  }

  datatype Body =
    | CategoryList(categories: map<int, Category>)
    | OneCategory(categoryId: int, category: Category)
    | ProductList(products: map<int, Product>)
    | OneProduct(productId: int, product: Product)
    | ValidationErrors
    | ErrorBody(error: string)
    | MessageBody(message: string)
    | Metadata(allow: set<HttpMethod>)
    | NoBody

  datatype Reply = Reply(status: int, body: Body)

  /** The products of one category. */
  function InCategory(products: map<int, Product>, categoryId: int): (r: map<int, Product>)
    ensures r.Keys <= products.Keys
    ensures forall k :: k in products ==> (k in r <==> products[k].categoryId == categoryId)
    ensures forall k :: k in r ==> r[k] == products[k]
  {
    map k | k in products && products[k].categoryId == categoryId :: products[k]
  }

  /** The `Category` and `Product` tables. */
  class Catalog {
    var categories: map<int, Category>
    var products: map<int, Product>
    /** The next primary key of each table. */
    var nextCategoryId: int
    var nextProductId: int

    ghost predicate Valid()
      reads this
    {
      (forall k :: k in categories ==> k < nextCategoryId) && (forall k :: k in products ==> k < nextProductId)
    }

    constructor ()
      ensures Valid() && categories == map[] && products == map[]
    {
      categories := map[];
      products := map[];
      nextCategoryId := 1;
      nextProductId := 1;
    }

    /** `category_list_create`. */
    method CategoryListCreate(m: HttpMethod, user: User, payload: Category, valid: bool) returns (reply: Reply)
      requires Valid()
      modifies this
      ensures Valid() && products == old(products) && nextProductId == old(nextProductId)
      ensures reply.status == ListStatus(m, user, valid)
      ensures m == GET ==> reply.body == CategoryList(categories)
      ensures m == OPTIONS ==> reply.body == Metadata({GET, POST, OPTIONS})
      ensures reply.status == 201 ==>
        categories == old(categories)[old(nextCategoryId) := payload] && nextCategoryId == old(nextCategoryId) + 1 &&
        reply.body == OneCategory(old(nextCategoryId), payload)
      ensures reply.status != 201 ==> categories == old(categories) && nextCategoryId == old(nextCategoryId)
    {
      reply := Reply(ListStatus(m, user, valid), NoBody);
      match m
      case GET =>
        reply := Reply(200, CategoryList(categories));
      case OPTIONS =>
        reply := Reply(200, Metadata({GET, POST, OPTIONS}));
      case POST =>
        if !user.authenticated {
          reply := Reply(401, ErrorBody("Authentication credentials were not provided."));
        } else if !IsAdmin(user) {
          reply := Reply(403, ErrorBody("You do not have permission to create categories."));
        } else if valid {
          categories := categories[nextCategoryId := payload];
          reply := Reply(201, OneCategory(nextCategoryId, payload));
          nextCategoryId := nextCategoryId + 1;
        } else {
          reply := Reply(400, ValidationErrors);
        }
      case _ =>
    }

    /** `category_detail`. */
    method CategoryDetail(m: HttpMethod, user: User, categoryId: int, patch: CategoryPatch, valid: bool)
      returns (reply: Reply)
      requires Valid()
      modifies this
      ensures Valid() && products == old(products) && nextCategoryId == old(nextCategoryId) && nextProductId == old(nextProductId)
      ensures reply.status == DetailStatus(m, user, categoryId in old(categories), valid)
      ensures reply.status == 404 ==> reply.body == ErrorBody("Category not found.")
      ensures m == OPTIONS ==> reply.body == Metadata({GET, PUT, DELETE, OPTIONS})
      ensures reply.status == 200 && m == GET ==> categoryId in categories && reply.body == OneCategory(categoryId, categories[categoryId])
      ensures reply.status == 200 && m == PUT ==>
        categories == old(categories)[categoryId := PatchCategory(old(categories)[categoryId], patch)] &&
        reply.body == OneCategory(categoryId, categories[categoryId])
      ensures reply.status == 204 ==> categories == old(categories) - {categoryId}
      ensures !(reply.status == 204 || (reply.status == 200 && m == PUT)) ==> categories == old(categories)
    {
      reply := Reply(DetailStatus(m, user, categoryId in categories, valid), NoBody);
      if m == OPTIONS {
        return Reply(200, Metadata({GET, PUT, DELETE, OPTIONS}));
      }
      if !(m == GET || m == PUT || m == DELETE) {
        return;
      }
      if categoryId !in categories {
        return Reply(404, ErrorBody("Category not found."));
      }
      var category := categories[categoryId];
      if m == GET {
        reply := Reply(200, OneCategory(categoryId, category));
      } else if !user.authenticated {
        reply := Reply(401, ErrorBody("Authentication credentials were not provided."));
      } else if !IsAdmin(user) {
        reply := Reply(403, ErrorBody(if m == PUT then "You do not have permission to update categories."
                                      else "You do not have permission to delete categories."));
      } else if m == PUT {
        if valid {
          var updated := PatchCategory(category, patch);
          categories := categories[categoryId := updated];
          reply := Reply(200, OneCategory(categoryId, updated));
        } else {
          reply := Reply(400, ValidationErrors);
        }
      } else {
        categories := categories - {categoryId};
        reply := Reply(204, MessageBody("Category deleted successfully."));
      }
    }

    /**
     * `product_list_create`. `categoryFilter` is the `category_id` query
     * parameter, present when it is non-empty text naming that id.
     */
    method ProductListCreate(m: HttpMethod, user: User, categoryFilter: Option<int>, payload: Product, valid: bool)
      returns (reply: Reply)
      requires Valid()
      modifies this
      ensures Valid() && categories == old(categories) && nextCategoryId == old(nextCategoryId)
      ensures m == GET && categoryFilter.None? ==> reply == Reply(200, ProductList(products))
      ensures m == GET && categoryFilter.Some? && categoryFilter.value !in categories ==>
        reply == Reply(404, ErrorBody("Category not found."))
      ensures m == GET && categoryFilter.Some? && categoryFilter.value in categories ==>
        reply == Reply(200, ProductList(InCategory(products, categoryFilter.value)))
      ensures m != GET ==> reply.status == ListStatus(m, user, valid)
      ensures m == OPTIONS ==> reply.body == Metadata({GET, POST, OPTIONS})
      ensures reply.status == 201 ==>
        products == old(products)[old(nextProductId) := payload] && nextProductId == old(nextProductId) + 1 &&
        reply.body == OneProduct(old(nextProductId), payload)
      ensures reply.status != 201 ==> products == old(products) && nextProductId == old(nextProductId)
    {
      reply := Reply(ListStatus(m, user, valid), NoBody);
      match m
      case GET =>
        if categoryFilter.Some? {
          if categoryFilter.value !in categories {
            return Reply(404, ErrorBody("Category not found."));
          }
          reply := Reply(200, ProductList(InCategory(products, categoryFilter.value)));
        } else {
          reply := Reply(200, ProductList(products));
        }
      case OPTIONS =>
        reply := Reply(200, Metadata({GET, POST, OPTIONS}));
      case POST =>
        if !user.authenticated {
          reply := Reply(401, ErrorBody("Authentication credentials were not provided."));
        } else if !IsAdmin(user) {
          reply := Reply(403, ErrorBody("You do not have permission to create products."));
        } else if valid {
          products := products[nextProductId := payload];
          reply := Reply(201, OneProduct(nextProductId, payload));
          nextProductId := nextProductId + 1;
        } else {
          reply := Reply(400, ValidationErrors);
        }
      case _ =>
    }

    /** `product_detail`. */
    method ProductDetail(m: HttpMethod, user: User, productId: int, patch: ProductPatch, valid: bool)
      returns (reply: Reply)
      requires Valid()
      modifies this
      ensures Valid() && categories == old(categories) && nextProductId == old(nextProductId) && nextCategoryId == old(nextCategoryId)
      ensures reply.status == DetailStatus(m, user, productId in old(products), valid)
      ensures reply.status == 404 ==> reply.body == ErrorBody("Product not found.")
      ensures m == OPTIONS ==> reply.body == Metadata({GET, PUT, DELETE, OPTIONS})
      ensures reply.status == 200 && m == GET ==> productId in products && reply.body == OneProduct(productId, products[productId])
      ensures reply.status == 200 && m == PUT ==>
        products == old(products)[productId := PatchProduct(old(products)[productId], patch)] &&
        reply.body == OneProduct(productId, products[productId])
      ensures reply.status == 204 ==> products == old(products) - {productId}
      ensures !(reply.status == 204 || (reply.status == 200 && m == PUT)) ==> products == old(products)
    {
      reply := Reply(DetailStatus(m, user, productId in products, valid), NoBody);
      if m == OPTIONS {
        return Reply(200, Metadata({GET, PUT, DELETE, OPTIONS}));
      }
      if !(m == GET || m == PUT || m == DELETE) {
        return;
      }
      if productId !in products {
        return Reply(404, ErrorBody("Product not found."));
      }
      var product := products[productId];
      if m == GET {
        reply := Reply(200, OneProduct(productId, product));
      } else if !user.authenticated {
        reply := Reply(401, ErrorBody("Authentication credentials were not provided."));
      } else if !IsAdmin(user) {
        reply := Reply(403, ErrorBody(if m == PUT then "You do not have permission to update products."
                                      else "You do not have permission to delete products."));
      } else if m == PUT {
        if valid {
          var updated := PatchProduct(product, patch);
          products := products[productId := updated];
          reply := Reply(200, OneProduct(productId, updated));
        } else {
          reply := Reply(400, ValidationErrors);
        }
      } else {
        products := products - {productId};
        reply := Reply(204, MessageBody("Product deleted successfully."));
      }
    }
  }

  /**
   * Reads never depend on who asks: GET answers the same for every user,
   * and OPTIONS is 200 for everyone, even for an id that does not exist.
   */
  lemma ReadsArePublic(exists_: bool, valid: bool, a: User, b: User)
    ensures ListStatus(GET, a, valid) == ListStatus(GET, b, valid) == 200
    ensures DetailStatus(GET, a, exists_, valid) == DetailStatus(GET, b, exists_, valid)
    ensures ListStatus(OPTIONS, a, valid) == DetailStatus(OPTIONS, a, exists_, valid) == 200
  {
  }
}
