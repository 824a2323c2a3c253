/**
 * The order service's endpoints (orders_app/views.py): placing an order from
 * the caller's cart with an all-or-nothing stock check, listing and showing
 * orders, cancelling one, and changing its status as an administrator. The
 * products service's table is the `Catalog` of the products model; every
 * stock write goes through its `UpdateStock` endpoint.
 */
module OrderViews {
  import opened Common
  import opened OrderModels
  import opened ProductsViews
  import opened StockViews

  /** One row of the caller's cart, as the cart service returns it. */
  datatype CartLine = CartLine(productId: int, quantity: int, price: real)

  /** A line passes the check when its product exists and holds at least the ordered quantity. */
  predicate Passes(line: CartLine, products: map<int, Product>) {
    line.productId in products && products[line.productId].stock >= line.quantity
  }

  /** The 400 message for a line that does not pass. */
  function Refusal(line: CartLine, products: map<int, Product>): string {
    if line.productId !in products then "Product " + IntToString(line.productId) + " not found"
    else products[line.productId].name + " has insufficient stock. Available: " + IntToString(products[line.productId].stock)
  }

  /** The first line that does not pass: the check stops there. */
  function FirstFailure(lines: seq<CartLine>, products: map<int, Product>): (r: Option<nat>)
    ensures r.None? <==> forall i :: 0 <= i < |lines| ==> Passes(lines[i], products)
    ensures r.Some? ==>
      r.value < |lines| && !Passes(lines[r.value], products) && forall i :: 0 <= i < r.value ==> Passes(lines[i], products)
  {
    if lines == [] then None
    else if !Passes(lines[0], products) then Some(0)
    else
      var rest := FirstFailure(lines[1..], products);
      assert forall i :: 1 <= i < |lines| ==> lines[i] == lines[1..][i - 1];
      if rest.None? then None else Some(rest.value + 1)
  }

  /** The check stops at the first line that does not pass. */
  lemma FirstFailureAt(lines: seq<CartLine>, products: map<int, Product>, i: nat)
    requires i < |lines| && !Passes(lines[i], products)
    requires forall j :: 0 <= j < i ==> Passes(lines[j], products)
    ensures FirstFailure(lines, products) == Some(i)
  {
  }

  /** An entry of `order_items_data`: the product's name comes from the products service. */
  datatype ItemData = ItemData(productId: int, productName: string, quantity: int, price: real)

  /** `order_items_data` for lines whose products all exist, in cart order. */
  function ItemsOf(lines: seq<CartLine>, products: map<int, Product>): (data: seq<ItemData>)
    requires forall i :: 0 <= i < |lines| ==> lines[i].productId in products
    ensures |data| == |lines|
    ensures forall i :: 0 <= i < |lines| ==>
      data[i] == ItemData(lines[i].productId, products[lines[i].productId].name, lines[i].quantity, lines[i].price)
  {
    if lines == [] then []
    else
      var last := lines[|lines| - 1];
      ItemsOf(lines[..|lines| - 1], products) + [ItemData(last.productId, products[last.productId].name, last.quantity, last.price)]
  }

  /** `sum(item['price'] * item['quantity'] for item in order_items_data)`. */
  function DataSubtotal(data: seq<ItemData>): real {
    if data == [] then 0.0
    else DataSubtotal(data[..|data| - 1]) + data[|data| - 1].price * data[|data| - 1].quantity as real
  }

  /** `OrderItem.objects.create(order=order, **item_data)`: the stored row, its subtotal set by `save`. */
  function Persist(d: ItemData): (item: OrderItem)
    ensures item.productId == d.productId && item.productName == d.productName
    ensures item.quantity == d.quantity && item.price == d.price
    ensures item.subtotal == d.quantity as real * d.price
  {
    SaveItem(OrderItem(d.productId, d.productName, d.quantity, d.price, 0.0))
  }

  function PersistAll(data: seq<ItemData>): (items: seq<OrderItem>)
    ensures |items| == |data|
    ensures forall i :: 0 <= i < |data| ==> items[i] == Persist(data[i])
  {
    if data == [] then [] else PersistAll(data[..|data| - 1]) + [Persist(data[|data| - 1])]
  }

  /** Σ of the stored items' subtotals. */
  function ItemsSubtotal(items: seq<OrderItem>): real {
    if items == [] then 0.0 else ItemsSubtotal(items[..|items| - 1]) + items[|items| - 1].subtotal
  }

  /** The order row `Order.objects.create` stores for a checked cart. */
  function Placed(id: int, user: int, uuidHex: string, request: DeliveryRequest, data: seq<ItemData>): Order {
    var totals := TotalsOf(DataSubtotal(data));
    Order(id, user, AssignNumber("", uuidHex), DefaultStatus, totals.total, totals.tax, WithDefaults(request), PersistAll(data))
  }

  /** The stored items' subtotals add up to the subtotal the order's amounts were computed from. */
  lemma {:induction false} StoredSubtotalsAddUp(data: seq<ItemData>)
    ensures ItemsSubtotal(PersistAll(data)) == DataSubtotal(data)
  {
    if data != [] {
      var init := data[..|data| - 1];
      StoredSubtotalsAddUp(init);
      assert PersistAll(data)[..|data| - 1] == PersistAll(init);
    }
  }

  /**
   * A placed order starts pending with a fresh number; its tax is a tenth of
   * the sum of its items' subtotals and its total is that sum plus the tax.
   */
  lemma PlacedOrderAmounts(id: int, user: int, uuidHex: string, request: DeliveryRequest, data: seq<ItemData>)
    ensures var o := Placed(id, user, uuidHex, request, data);
      o.status == Pending && o.orderNumber != "" && |o.items| == |data| &&
      o.taxAmount * 10.0 == ItemsSubtotal(o.items) && o.totalAmount == ItemsSubtotal(o.items) + o.taxAmount
  {
    StoredSubtotalsAddUp(data);
    NumberNeverOverwritten("", uuidHex, uuidHex);
  }

  /** No later entry is for the same product. */
  predicate LastFor(data: seq<ItemData>, i: int)
    requires 0 <= i < |data|
  {
    forall j :: i < j < |data| ==> data[j].productId != data[i].productId
  }

  /**
   * The product table after the write loop: each line writes the stock read
   * at check time minus its quantity, so of two lines for one product the
   * later wins; a product whose write fails keeps its row.
   */
  function StockAfter(orig: map<int, Product>, data: seq<ItemData>, failed: set<int>): (r: map<int, Product>)
    requires forall i :: 0 <= i < |data| ==> data[i].productId in orig
    ensures r.Keys == orig.Keys
  {
    if data == [] then orig
    else
      var init := data[..|data| - 1];
      var d := data[|data| - 1];
      var m := StockAfter(orig, init, failed);
      assert forall i :: 0 <= i < |init| ==> init[i] == data[i];
      if d.productId in failed then m
      else m[d.productId := m[d.productId].(stock := orig[d.productId].stock - d.quantity)]
  }

  /**
   * Only the stock changes; a product whose write fails, or that no entry
   * names, keeps its row.
   */
  lemma {:induction false} StockAfterKeeps(orig: map<int, Product>, data: seq<ItemData>, failed: set<int>, p: int)
    requires forall j :: 0 <= j < |data| ==> data[j].productId in orig
    requires p in orig
    ensures StockAfter(orig, data, failed)[p] == orig[p].(stock := StockAfter(orig, data, failed)[p].stock)
    ensures p in failed || (forall j :: 0 <= j < |data| ==> data[j].productId != p) ==> StockAfter(orig, data, failed)[p] == orig[p]
  {
    if data != [] {
      var init := data[..|data| - 1];
      assert forall j :: 0 <= j < |init| ==> init[j] == data[j];
      StockAfterKeeps(orig, init, failed, p);
    }
  }

  /** A product whose write goes through ends with the stock written for its last entry. */
  lemma {:induction false} LastWriteWins(orig: map<int, Product>, data: seq<ItemData>, failed: set<int>, i: nat)
    requires forall j :: 0 <= j < |data| ==> data[j].productId in orig
    requires i < |data| && data[i].productId !in failed && LastFor(data, i)
    ensures StockAfter(orig, data, failed)[data[i].productId].stock == orig[data[i].productId].stock - data[i].quantity
  {
    var init := data[..|data| - 1];
    assert forall j :: 0 <= j < |init| ==> init[j] == data[j];
    if i < |data| - 1 {
      assert LastFor(init, i);
      LastWriteWins(orig, init, failed, i);
    }
  }

  /** One more entry of the write loop. */
  lemma StockAfterStep(orig: map<int, Product>, data: seq<ItemData>, k: nat, failed: set<int>)
    requires k < |data|
    requires forall i :: 0 <= i < |data| ==> data[i].productId in orig
    ensures var d := data[k];
      var m := StockAfter(orig, data[..k], failed);
      StockAfter(orig, data[..k + 1], failed) ==
        if d.productId in failed then m else m[d.productId := m[d.productId].(stock := orig[d.productId].stock - d.quantity)]
  {
    var s := data[..k + 1];
    assert s[..|s| - 1] == data[..k];
    assert s[|s| - 1] == data[k];
  }

  /** Units of product `p` among the items. */
  function UnitsOf(items: seq<OrderItem>, p: int): int {
    if items == [] then 0
    else UnitsOf(items[..|items| - 1], p) + (if items[|items| - 1].productId == p then items[|items| - 1].quantity else 0)
  }

  /**
   * The product table after the restore loop: each item whose product is
   * found adds its quantity to the stock read at that moment, so the
   * product's stock grows by all its units; a product whose calls fail keeps
   * its row.
   */
  function RestoreStock(products: map<int, Product>, items: seq<OrderItem>, failed: set<int>): (r: map<int, Product>)
    ensures r.Keys == products.Keys
  {
    if items == [] then products
    else
      var m := RestoreStock(products, items[..|items| - 1], failed);
      var it := items[|items| - 1];
      if it.productId in m && it.productId !in failed then m[it.productId := m[it.productId].(stock := m[it.productId].stock + it.quantity)]
      else m
  }

  /**
   * Restoring changes only stock: a product whose calls fail keeps its row,
   * and any other product's stock grows by all its units in the order.
   */
  lemma {:induction false} RestoredStock(products: map<int, Product>, items: seq<OrderItem>, failed: set<int>, p: int)
    requires p in products
    ensures RestoreStock(products, items, failed)[p] == products[p].(stock := RestoreStock(products, items, failed)[p].stock)
    ensures p in failed ==> RestoreStock(products, items, failed)[p] == products[p]
    ensures p !in failed ==> RestoreStock(products, items, failed)[p].stock == products[p].stock + UnitsOf(items, p)
  {
    if items != [] {
      RestoredStock(products, items[..|items| - 1], failed, p);
    }
  }

  predicate DistinctProducts(lines: seq<CartLine>) {
    forall i, j :: 0 <= i < j < |lines| ==> lines[i].productId != lines[j].productId
  }

  /** After a passed check, no product whose stock was non-negative goes negative. */
  lemma {:induction false} StockStaysNonNegative(orig: map<int, Product>, data: seq<ItemData>, failed: set<int>)
    requires forall i :: 0 <= i < |data| ==> data[i].productId in orig && data[i].quantity <= orig[data[i].productId].stock
    requires forall p :: p in orig ==> orig[p].stock >= 0
    ensures forall p :: p in StockAfter(orig, data, failed) ==> StockAfter(orig, data, failed)[p].stock >= 0
  {
    if data != [] {
      var init := data[..|data| - 1];
      assert forall i :: 0 <= i < |init| ==> init[i] == data[i];
      StockStaysNonNegative(orig, init, failed);
    }
  }

  /** Placing an order from a cart that passed the check leaves no stock negative. */
  lemma OrderKeepsStockNonNegative(orig: map<int, Product>, lines: seq<CartLine>, failed: set<int>)
    requires FirstFailure(lines, orig).None?
    requires forall p :: p in orig ==> orig[p].stock >= 0
    ensures forall p :: p in StockAfter(orig, ItemsOf(lines, orig), failed) ==> StockAfter(orig, ItemsOf(lines, orig), failed)[p].stock >= 0
  {
    StockStaysNonNegative(orig, ItemsOf(lines, orig), failed);
  }

  lemma {:induction false} UnitsOfAbsent(data: seq<ItemData>, p: int)
    requires forall i :: 0 <= i < |data| ==> data[i].productId != p
    ensures UnitsOf(PersistAll(data), p) == 0
  {
    if data != [] {
      var init := data[..|data| - 1];
      UnitsOfAbsent(init, p);
      assert PersistAll(data)[..|data| - 1] == PersistAll(init);
    }
  }

  lemma {:induction false} UnitsOfDistinct(data: seq<ItemData>, i: nat)
    requires i < |data|
    requires forall a, b :: 0 <= a < b < |data| ==> data[a].productId != data[b].productId
    ensures UnitsOf(PersistAll(data), data[i].productId) == data[i].quantity
  {
    var init := data[..|data| - 1];
    assert PersistAll(data)[..|data| - 1] == PersistAll(init);
    if i == |data| - 1 {
      UnitsOfAbsent(init, data[i].productId);
    } else {
      UnitsOfDistinct(init, i);
    }
  }

  /** One product's row after a write loop over distinct products and the matching restore loop. */
  lemma RestoredRow(orig: map<int, Product>, data: seq<ItemData>, failed: set<int>, p: int)
    requires forall j :: 0 <= j < |data| ==> data[j].productId in orig
    requires forall a, b :: 0 <= a < b < |data| ==> data[a].productId != data[b].productId
    requires p in orig
    ensures RestoreStock(StockAfter(orig, data, failed), PersistAll(data), failed)[p] == orig[p]
  {
    var after := StockAfter(orig, data, failed);
    StockAfterKeeps(orig, data, failed, p);
    RestoredStock(after, PersistAll(data), failed, p);
    if p !in failed {
      if i :| 0 <= i < |data| && data[i].productId == p {
        assert LastFor(data, i);
        LastWriteWins(orig, data, failed, i);
        UnitsOfDistinct(data, i);
      } else {
        UnitsOfAbsent(data, p);
      }
    }
  }

  /** The entries of a passed check name found products, and distinct lines give distinct entries. */
  lemma DistinctItems(lines: seq<CartLine>, orig: map<int, Product>)
    requires FirstFailure(lines, orig).None?
    requires DistinctProducts(lines)
    ensures forall j :: 0 <= j < |ItemsOf(lines, orig)| ==> ItemsOf(lines, orig)[j].productId in orig
    ensures forall a, b :: 0 <= a < b < |ItemsOf(lines, orig)| ==> ItemsOf(lines, orig)[a].productId != ItemsOf(lines, orig)[b].productId
  {
    var data := ItemsOf(lines, orig);
    assert forall j :: 0 <= j < |data| ==> data[j].productId == lines[j].productId;
  }

  /**
   * Cancelling an order placed from a cart of distinct products, with the
   * same calls failing both times, gives back exactly the product table the
   * order was checked against.
   */
  lemma CancelRestoresStock(orig: map<int, Product>, lines: seq<CartLine>, failed: set<int>)
    requires FirstFailure(lines, orig).None?
    requires DistinctProducts(lines)
    ensures var data := ItemsOf(lines, orig);
      RestoreStock(StockAfter(orig, data, failed), PersistAll(data), failed) == orig
  {
    var data := ItemsOf(lines, orig);
    DistinctItems(lines, orig);
    var back := RestoreStock(StockAfter(orig, data, failed), PersistAll(data), failed);
    forall p | p in orig
      ensures back[p] == orig[p]
    {
      RestoredRow(orig, data, failed, p);
    }
  }

  /** Whether an order already carries this number (`order_number` is unique). */
  predicate NumberTaken(orders: seq<Order>, number: string) {
    exists k :: 0 <= k < |orders| && orders[k].orderNumber == number
  }

  /** The position of the order with this id. */
  function IndexOfOrder(orders: seq<Order>, id: int): (r: Option<nat>)
    ensures r.Some? ==> r.value < |orders| && orders[r.value].id == id
    ensures r.None? ==> forall k :: 0 <= k < |orders| ==> orders[k].id != id
  {
    if orders == [] then None
    else if orders[|orders| - 1].id == id then Some(|orders| - 1)
    else IndexOfOrder(orders[..|orders| - 1], id)
  }

  /** `Order.objects.filter(user_id=...)`, in creation order. */
  function OwnOrders(orders: seq<Order>, user: int): (r: seq<Order>)
    ensures forall o :: o in r <==> o in orders && o.userId == user
  {
    if orders == [] then []
    else
      var init := OwnOrders(orders[..|orders| - 1], user);
      var last := orders[|orders| - 1];
      assert orders == orders[..|orders| - 1] + [last];
      if last.userId == user then init + [last] else init
  }

  /** A cart the order service accepts: fetched, non-empty and every line passing. */
  predicate Accepted(cart: Option<seq<CartLine>>, products: map<int, Product>) {
    cart.Some? && cart.value != [] && FirstFailure(cart.value, products).None?
  }

  /**
   * The order service's replies: an order, a list of orders, an error text,
   * or a 500 for an exception (the exception's text where `create_order`
   * catches it, the framework's error page where nothing does).
   */
  datatype OrderBody = OneOrder(order: Order) | OrderList(orders: seq<Order>) | OrderError(error: string) | ServerError

  datatype OrderReply = OrderReply(status: int, body: OrderBody)

  /** `order.status in ['pending', 'confirmed']`. */
  predicate Cancellable(s: Status) {
    s == Pending || s == Confirmed
  }

  /**
   * A remote call of `create_order` that raises instead of answering (every
   * call has a five-second timeout): the cart fetch (or a cart reply that is
   * not JSON), the product read of one cart line, the stock write of one
   * entry, or the closing cart clear. The broad `except` turns each into a
   * 500. A call that raises is taken to have had no effect on the service it
   * was sent to.
   */
  datatype Raise = CartFetchRaises | ProductReadRaises(line: nat) | StockWriteRaises(entry: nat) | CartClearRaises

  /** The check loop gets to line `i`: it exists and every earlier line passed. */
  predicate Reached(lines: seq<CartLine>, products: map<int, Product>, i: nat) {
    i < |lines| && forall j :: 0 <= j < i ==> Passes(lines[j], products)
  }

  /** The position of a loop's call that raises, if it is one of this loop's. */
  function ReadRaisesAt(raise: Option<Raise>): Option<nat> {
    if raise.Some? && raise.value.ProductReadRaises? then Some(raise.value.line) else None
  }

  function WriteRaisesAt(raise: Option<Raise>): Option<nat> {
    if raise.Some? && raise.value.StockWriteRaises? then Some(raise.value.entry) else None
  }

  /** How many passes a loop of `n` steps completes before the call at `raisesAt` raises. */
  function Completed(raisesAt: Option<nat>, n: nat): (k: nat)
    ensures k <= n
    ensures k < n <==> raisesAt.Some? && raisesAt.value < n
    ensures k < n ==> k == raisesAt.value
  {
    if raisesAt.Some? && raisesAt.value < n then raisesAt.value else n
  }

  /**
   * The items stored when the write loop stops: each entry's item is
   * created before its stock write, so the entry whose write raises is
   * stored too.
   */
  function StoredCount(raisesAt: Option<nat>, n: nat): (k: nat)
    ensures k <= n
    ensures k == if Completed(raisesAt, n) < n then Completed(raisesAt, n) + 1 else n
  {
    if raisesAt.Some? && raisesAt.value < n then raisesAt.value + 1 else n
  }

  /** The product read that raises comes before the check loop ends. */
  predicate ReadRaises(raise: Option<Raise>, lines: seq<CartLine>, products: map<int, Product>) {
    ReadRaisesAt(raise).Some? && Reached(lines, products, ReadRaisesAt(raise).value)
  }

  /**
   * The check phase of `create_order` gets through: the cart is fetched, is
   * not empty, no product read raises and every line passes.
   */
  predicate Checked(cart: Option<seq<CartLine>>, products: map<int, Product>, raise: Option<Raise>) {
    raise != Some(CartFetchRaises) && Accepted(cart, products) && !ReadRaises(raise, cart.value, products)
  }

  /**
   * The reply of the check phase of `create_order` when it stops the
   * request, in the order the view meets the cases: a cart fetch that
   * raises (500), a failed fetch and an empty cart (400), then whichever of
   * a raising product read (500) and a line that does not pass (400) comes
   * first in cart order.
   */
  function CheckReply(cart: Option<seq<CartLine>>, products: map<int, Product>, raise: Option<Raise>): (r: Option<OrderReply>)
    ensures r.None? <==> Checked(cart, products, raise)
    ensures r.Some? ==> r.value.status == 400 || r.value == OrderReply(500, ServerError)
  {
    if raise == Some(CartFetchRaises) then Some(OrderReply(500, ServerError))
    else if cart.None? then Some(OrderReply(400, OrderError("Failed to fetch cart")))
    else if cart.value == [] then Some(OrderReply(400, OrderError("Cart is empty")))
    else if ReadRaises(raise, cart.value, products) then Some(OrderReply(500, ServerError))
    else match FirstFailure(cart.value, products)
      case Some(i) => Some(OrderReply(400, OrderError(Refusal(cart.value[i], products))))
      case None => None
  }

  /**
   * The check loop of `create_order`: reads every line's product in cart
   * order, records its stock, and stops at the first line whose product is
   * missing or short of stock, or at the read that raises (`raisesAt`) if
   * the loop gets that far.
   */
  method CheckLines(products: map<int, Product>, lines: seq<CartLine>, raisesAt: Option<nat>)
    returns (raised: bool, refusal: Option<string>, data: seq<ItemData>, stockRead: map<int, int>)
    ensures raised <==> raisesAt.Some? && Reached(lines, products, raisesAt.value)
    ensures raised ==> refusal.None?
    ensures !raised ==> (refusal.Some? <==> FirstFailure(lines, products).Some?)
    ensures !raised && refusal.Some? ==> refusal.value == Refusal(lines[FirstFailure(lines, products).value], products)
    ensures !raised && refusal.None? ==> data == ItemsOf(lines, products)
    ensures !raised && refusal.None? ==> forall i :: 0 <= i < |lines| ==>
      lines[i].productId in stockRead && stockRead[lines[i].productId] == products[lines[i].productId].stock
  {
    data := [];
    stockRead := map[];
    raised := false;
    var i := 0;
    while i < |lines|
      invariant 0 <= i <= |lines|
      invariant forall j :: 0 <= j < i ==> Passes(lines[j], products)
      invariant raisesAt.Some? ==> raisesAt.value >= i
      invariant data == ItemsOf(lines[..i], products)
      invariant forall p :: p in stockRead ==> p in products && stockRead[p] == products[p].stock
      invariant forall j :: 0 <= j < i ==> lines[j].productId in stockRead
    {
      if raisesAt == Some(i) {
        return true, None, data, stockRead;
      }
      var line := lines[i];
      if line.productId !in products {
        FirstFailureAt(lines, products, i);
        return false, Some(Refusal(line, products)), data, stockRead;
      }
      var product := products[line.productId];
      stockRead := stockRead[line.productId := product.stock];
      if product.stock < line.quantity {
        FirstFailureAt(lines, products, i);
        return false, Some(Refusal(line, products)), data, stockRead;
      }
      data := data + [ItemData(line.productId, product.name, line.quantity, line.price)];
      assert lines[..i + 1][..i] == lines[..i];
      i := i + 1;
    }
    assert lines[..i] == lines;
    refusal := None;
  }

  /**
   * The state `create_order` leaves once every line has passed, from the
   * orders, next id and products before it. A taken number raises on the
   * insert (500) and writes nothing. Otherwise the order is appended holding
   * the items stored up to a raising stock write, the stock is written down
   * for the writes before it, the cart is cleared when every write ran and
   * the clear does not raise, and the reply is 201 exactly then.
   */
  ghost predicate Committed(orders0: seq<Order>, next0: int, products0: map<int, Product>,
                            orders: seq<Order>, next: int, products: map<int, Product>,
                            user: int, uuidHex: string, request: DeliveryRequest, data: seq<ItemData>,
                            failed: set<int>, raise: Option<Raise>, reply: OrderReply, clearCart: bool)
    requires forall i :: 0 <= i < |data| ==> data[i].productId in products0
  {
    if NumberTaken(orders0, AssignNumber("", uuidHex)) then
      reply == OrderReply(500, ServerError) && !clearCart &&
      orders == orders0 && next == next0 && products == products0
    else
      var written := Completed(WriteRaisesAt(raise), |data|);
      var order := Placed(next0, user, uuidHex, request, data).(
        items := PersistAll(data[..StoredCount(WriteRaisesAt(raise), |data|)]));
      orders == orders0 + [order] && next == next0 + 1 &&
      products == StockAfter(products0, data[..written], failed) &&
      (clearCart <==> written == |data| && raise != Some(CartClearRaises)) &&
      reply == (if clearCart then OrderReply(201, OneOrder(order)) else OrderReply(500, ServerError))
  }

  /** The check phase of `create_order`: the cart fetch, the empty cart and the check loop. */
  method CheckCart(products: map<int, Product>, cart: Option<seq<CartLine>>, raise: Option<Raise>)
    returns (stop: Option<OrderReply>, data: seq<ItemData>, stockRead: map<int, int>)
    ensures stop == CheckReply(cart, products, raise)
    ensures stop.None? ==> data == ItemsOf(cart.value, products)
    ensures stop.None? ==> forall i :: 0 <= i < |cart.value| ==>
      cart.value[i].productId in stockRead && stockRead[cart.value[i].productId] == products[cart.value[i].productId].stock
  {
    data, stockRead := [], map[];
    if raise == Some(CartFetchRaises) {
      return Some(OrderReply(500, ServerError)), data, stockRead;
    }
    if cart.None? {
      return Some(OrderReply(400, OrderError("Failed to fetch cart"))), data, stockRead;
    }
    var lines := cart.value;
    if lines == [] {
      return Some(OrderReply(400, OrderError("Cart is empty"))), data, stockRead;
    }
    var raised, refusal;
    raised, refusal, data, stockRead := CheckLines(products, lines, ReadRaisesAt(raise));
    if raised {
      stop := Some(OrderReply(500, ServerError));
    } else if refusal.Some? {
      stop := Some(OrderReply(400, OrderError(refusal.value)));
    } else {
      stop := None;
    }
  }

  /**
   * The write loop of `create_order`: for each entry, the stock recorded at
   * check time minus the entry's quantity is sent to the stock endpoint
   * with the caller's token; a write that is refused is only logged, and a
   * write that raises (`raisesAt`) ends the loop.
   */
  method WriteStock(catalog: Catalog, data: seq<ItemData>, stockRead: map<int, int>, failed: set<int>, raisesAt: Option<nat>)
    returns (raised: bool)
    requires catalog.Valid()
    requires forall i :: 0 <= i < |data| ==>
      data[i].productId in catalog.products && data[i].productId in stockRead &&
      stockRead[data[i].productId] == catalog.products[data[i].productId].stock
    modifies catalog
    ensures catalog.Valid()
    ensures catalog.categories == old(catalog.categories)
    ensures catalog.nextCategoryId == old(catalog.nextCategoryId) && catalog.nextProductId == old(catalog.nextProductId)
    ensures raised <==> raisesAt.Some? && raisesAt.value < |data|
    ensures catalog.products == StockAfter(old(catalog.products), data[..Completed(raisesAt, |data|)], failed)
  {
    ghost var orig := catalog.products;
    raised := false;
    var k := 0;
    while k < |data|
      invariant 0 <= k <= |data|
      invariant raisesAt.Some? ==> raisesAt.value >= k
      invariant catalog.Valid()
      invariant catalog.categories == old(catalog.categories)
      invariant catalog.nextCategoryId == old(catalog.nextCategoryId) && catalog.nextProductId == old(catalog.nextProductId)
      invariant catalog.products == StockAfter(orig, data[..k], failed)
    {
      if raisesAt == Some(k) {
        return true;
      }
      var d := data[k];
      StockAfterStep(orig, data, k, failed);
      if d.productId !in failed {
        var newStock := stockRead[d.productId] - d.quantity;
        var _ := UpdateStock(catalog, true, d.productId, Some(newStock));
      }
      k := k + 1;
    }
    assert data[..k] == data;
  }

  /**
   * The restore loop of `cancel_order` and `update_order_status`: for each
   * item whose product is found, the stock read now plus the item's quantity
   * is sent to the stock endpoint with the caller's token. The read or the
   * write for the item at `raisesAt` may raise, which ends the loop.
   */
  method RestoreItems(catalog: Catalog, items: seq<OrderItem>, failed: set<int>, raisesAt: Option<nat>)
    returns (raised: bool)
    requires catalog.Valid()
    modifies catalog
    ensures catalog.Valid()
    ensures catalog.categories == old(catalog.categories)
    ensures catalog.nextCategoryId == old(catalog.nextCategoryId) && catalog.nextProductId == old(catalog.nextProductId)
    ensures raised <==> raisesAt.Some? && raisesAt.value < |items|
    ensures catalog.products == RestoreStock(old(catalog.products), items[..Completed(raisesAt, |items|)], failed)
  {
    ghost var orig := catalog.products;
    raised := false;
    var k := 0;
    while k < |items|
      invariant 0 <= k <= |items|
      invariant raisesAt.Some? ==> raisesAt.value >= k
      invariant catalog.Valid()
      invariant catalog.categories == old(catalog.categories)
      invariant catalog.nextCategoryId == old(catalog.nextCategoryId) && catalog.nextProductId == old(catalog.nextProductId)
      invariant catalog.products == RestoreStock(orig, items[..k], failed)
    {
      if raisesAt == Some(k) {
        return true;
      }
      var item := items[k];
      if item.productId in catalog.products && item.productId !in failed {
        var newStock := catalog.products[item.productId].stock + item.quantity;
        var _ := UpdateStock(catalog, true, item.productId, Some(newStock));
      }
      assert items[..k + 1][..k] == items[..k];
      k := k + 1;
    }
    assert items[..k] == items;
  }

  /** Orders with strictly increasing ids below the next id, and distinct non-empty numbers. */
  ghost predicate OrdersValid(orders: seq<Order>, nextOrderId: int) {
    (forall i, j :: 0 <= i < j < |orders| ==> orders[i].id < orders[j].id) &&
    (forall i :: 0 <= i < |orders| ==> orders[i].id < nextOrderId && orders[i].orderNumber != "") &&
    (forall i, j :: 0 <= i < j < |orders| ==> orders[i].orderNumber != orders[j].orderNumber)
  }

  /** Appending an order with the next id and an untaken, non-empty number keeps the table valid. */
  lemma AppendKeepsValid(orders: seq<Order>, nextOrderId: int, order: Order)
    requires OrdersValid(orders, nextOrderId)
    requires order.id == nextOrderId && order.orderNumber != "" && !NumberTaken(orders, order.orderNumber)
    ensures OrdersValid(orders + [order], nextOrderId + 1)
  {
  }

  /** Replacing an order's status keeps the table valid. */
  lemma SetStatusKeepsValid(orders: seq<Order>, nextOrderId: int, k: nat, s: Status)
    requires OrdersValid(orders, nextOrderId) && k < |orders|
    ensures OrdersValid(orders[k := orders[k].(status := s)], nextOrderId)
  {
  }

  /** The `Order` table, in creation order, with its items inside each order. */
  class OrderStore {
    var orders: seq<Order>
    var nextOrderId: int

    ghost predicate Valid()
      reads this
    {
      OrdersValid(orders, nextOrderId)
    }

    constructor ()
      ensures Valid() && orders == []
    {
      orders := [];
      nextOrderId := 1;
    }

    /**
     * `create_order`. A cart fetch that raises is 500; a failed fetch, an
     * empty cart and the first line that does not pass are each 400; a
     * product read that raises before the check ends is 500; a number that
     * is already taken makes the insert raise (500). In all of these nothing
     * is written. Otherwise the order is stored with its amounts, the items
     * and stock writes run in cart order, and the cart service clears the
     * cart (`clearCart`), unless a stock write raises first: then the reply
     * is 500 and what was written up to that point stays. A cart clear that
     * raises leaves the cart and answers 500. The reply is 201 exactly when
     * no call raised, and then the cart is cleared.
     */
    method CreateOrder(user: int, cart: Option<seq<CartLine>>, request: DeliveryRequest, uuidHex: string,
                       catalog: Catalog, failed: set<int>, raise: Option<Raise>) returns (reply: OrderReply, clearCart: bool)
      requires Valid() && catalog.Valid()
      modifies this, catalog
      ensures Valid() && catalog.Valid()
      ensures catalog.categories == old(catalog.categories)
      ensures catalog.nextCategoryId == old(catalog.nextCategoryId) && catalog.nextProductId == old(catalog.nextProductId)
      ensures CheckReply(cart, old(catalog.products), raise).Some? ==> reply == CheckReply(cart, old(catalog.products), raise).value
      ensures !Checked(cart, old(catalog.products), raise) ==>
        !clearCart && orders == old(orders) && nextOrderId == old(nextOrderId) && catalog.products == old(catalog.products)
      ensures Checked(cart, old(catalog.products), raise) ==>
        var data := ItemsOf(cart.value, old(catalog.products));
        Committed(old(orders), old(nextOrderId), old(catalog.products), orders, nextOrderId, catalog.products,
                  user, uuidHex, request, data, failed, raise, reply, clearCart)
      ensures reply.status == 201 ==>
        Checked(cart, old(catalog.products), raise) && !NumberTaken(old(orders), AssignNumber("", uuidHex)) &&
        var data := ItemsOf(cart.value, old(catalog.products));
        var order := Placed(old(nextOrderId), user, uuidHex, request, data);
        orders == old(orders) + [order] && catalog.products == StockAfter(old(catalog.products), data, failed) &&
        clearCart && reply == OrderReply(201, OneOrder(order))
    {
      var stop, data, stockRead := CheckCart(catalog.products, cart, raise);
      if stop.Some? {
        reply, clearCart := stop.value, false;
        return;
      }
      reply, clearCart := Commit(user, uuidHex, request, data, stockRead, catalog, failed, raise);
    }

    /**
     * The writing part of `create_order` once every line has passed: the
     * number check, the order with its items and stock writes, and the cart
     * clear.
     */
    method Commit(user: int, uuidHex: string, request: DeliveryRequest, data: seq<ItemData>, stockRead: map<int, int>,
                  catalog: Catalog, failed: set<int>, raise: Option<Raise>) returns (reply: OrderReply, clearCart: bool)
      requires Valid() && catalog.Valid()
      requires forall i :: 0 <= i < |data| ==>
        data[i].productId in catalog.products && data[i].productId in stockRead &&
        stockRead[data[i].productId] == catalog.products[data[i].productId].stock
      modifies this, catalog
      ensures Valid() && catalog.Valid()
      ensures catalog.categories == old(catalog.categories)
      ensures catalog.nextCategoryId == old(catalog.nextCategoryId) && catalog.nextProductId == old(catalog.nextProductId)
      ensures Committed(old(orders), old(nextOrderId), old(catalog.products), orders, nextOrderId, catalog.products,
                        user, uuidHex, request, data, failed, raise, reply, clearCart)
      ensures reply.status == 201 ==>
        !NumberTaken(old(orders), AssignNumber("", uuidHex)) &&
        var order := Placed(old(nextOrderId), user, uuidHex, request, data);
        orders == old(orders) + [order] && catalog.products == StockAfter(old(catalog.products), data, failed) &&
        clearCart && reply == OrderReply(201, OneOrder(order))
    {
      clearCart := false;
      var number := AssignNumber("", uuidHex);
      if NumberTaken(orders, number) {
        reply := OrderReply(500, ServerError);
        return;
      }
      var order, writeRaised := Place(user, uuidHex, request, data, stockRead, catalog, failed, WriteRaisesAt(raise));
      if writeRaised {
        reply := OrderReply(500, ServerError);
        return;
      }
      assert Completed(WriteRaisesAt(raise), |data|) == StoredCount(WriteRaisesAt(raise), |data|) == |data|;
      assert data[..|data|] == data;
      clearCart := raise != Some(CartClearRaises);
      reply := if clearCart then OrderReply(201, OneOrder(order)) else OrderReply(500, ServerError);
    }

    /**
     * The writing part of `create_order`: the order is saved, then each
     * entry's item is stored and its product's stock written down, until a
     * stock write raises (`raisesAt`).
     */
    method Place(user: int, uuidHex: string, request: DeliveryRequest, data: seq<ItemData>, stockRead: map<int, int>,
                 catalog: Catalog, failed: set<int>, raisesAt: Option<nat>) returns (order: Order, raised: bool)
      requires Valid() && catalog.Valid()
      requires !NumberTaken(orders, AssignNumber("", uuidHex))
      requires forall i :: 0 <= i < |data| ==>
        data[i].productId in catalog.products && data[i].productId in stockRead &&
        stockRead[data[i].productId] == catalog.products[data[i].productId].stock
      modifies this, catalog
      ensures Valid() && catalog.Valid()
      ensures catalog.categories == old(catalog.categories)
      ensures catalog.nextCategoryId == old(catalog.nextCategoryId) && catalog.nextProductId == old(catalog.nextProductId)
      ensures raised <==> raisesAt.Some? && raisesAt.value < |data|
      ensures order == Placed(old(nextOrderId), user, uuidHex, request, data).(items := PersistAll(data[..StoredCount(raisesAt, |data|)]))
      ensures !raised ==> order == Placed(old(nextOrderId), user, uuidHex, request, data)
      ensures orders == old(orders) + [order] && nextOrderId == old(nextOrderId) + 1
      ensures catalog.products == StockAfter(old(catalog.products), data[..Completed(raisesAt, |data|)], failed)
    {
      var totals := TotalsOf(DataSubtotal(data));
      var number := AssignNumber("", uuidHex);
      NumberNeverOverwritten("", uuidHex, uuidHex);
      assert data[..|data|] == data;
      order := Order(nextOrderId, user, number, DefaultStatus, totals.total, totals.tax, WithDefaults(request),
                     PersistAll(data[..StoredCount(raisesAt, |data|)]));
      AppendKeepsValid(orders, nextOrderId, order);
      orders := orders + [order];
      nextOrderId := nextOrderId + 1;
      raised := WriteStock(catalog, data, stockRead, failed, raisesAt);
    }

    /** `get_orders`: the caller's orders, newest first. */
    method GetOrders(user: int) returns (reply: OrderReply)
      ensures reply.status == 200 && reply.body.OrderList?
      ensures forall o :: o in reply.body.orders <==> o in orders && o.userId == user
      ensures reply.body.orders == NewestFirst(OwnOrders(orders, user))
    {
      var own := OwnOrders(orders, user);
      var listed := NewestFirst(own);
      assert forall o :: o in listed <==> o in own by {
        forall o | o in own ensures o in listed {
          var i :| 0 <= i < |own| && own[i] == o;
          assert listed[|own| - 1 - i] == o;
        }
      }
      reply := OrderReply(200, OrderList(listed));
    }

    /** `get_order_detail`: an order is found only among the caller's own. */
    method GetOrderDetail(user: int, orderId: int) returns (reply: OrderReply)
      requires Valid()
      ensures reply.status == 200 || reply == OrderReply(404, OrderError("Order not found"))
      ensures reply.status == 200 <==> exists k :: 0 <= k < |orders| && orders[k].id == orderId && orders[k].userId == user
      ensures reply.status == 200 ==>
        reply.body.OneOrder? && reply.body.order in orders && reply.body.order.id == orderId && reply.body.order.userId == user
    {
      var idx := IndexOfOrder(orders, orderId);
      if idx.None? || orders[idx.value].userId != user {
        reply := OrderReply(404, OrderError("Order not found"));
        return;
      }
      reply := OrderReply(200, OneOrder(orders[idx.value]));
    }

    /** `get_all_orders`: staff only, every order newest first. */
    method GetAllOrders(staff: bool) returns (reply: OrderReply)
      ensures !staff ==> reply == OrderReply(403, OrderError("Admin access required"))
      ensures staff ==> reply == OrderReply(200, OrderList(NewestFirst(orders)))
    {
      if !staff {
        return OrderReply(403, OrderError("Admin access required"));
      }
      reply := OrderReply(200, OrderList(NewestFirst(orders)));
    }

    /**
     * `cancel_order`: only the caller's own order is found (404 otherwise);
     * an order past `confirmed` is 400; otherwise its items' quantities go
     * back into stock and it becomes `cancelled`. Only a missing order is
     * caught: a product read or stock write that raises (`raisesAt`) ends
     * the request with a 500, the items before it restored and the status
     * not saved.
     */
    method CancelOrder(user: int, orderId: int, catalog: Catalog, failed: set<int>, raisesAt: Option<nat>)
      returns (reply: OrderReply)
      requires Valid() && catalog.Valid()
      modifies this, catalog
      ensures Valid() && catalog.Valid()
      ensures nextOrderId == old(nextOrderId)
      ensures catalog.categories == old(catalog.categories)
      ensures catalog.nextCategoryId == old(catalog.nextCategoryId) && catalog.nextProductId == old(catalog.nextProductId)
      ensures var idx := IndexOfOrder(old(orders), orderId);
        idx.None? || old(orders)[idx.value].userId != user ==>
        reply == OrderReply(404, OrderError("Order not found")) &&
        orders == old(orders) && catalog.products == old(catalog.products)
      ensures var idx := IndexOfOrder(old(orders), orderId);
        idx.Some? && old(orders)[idx.value].userId == user && !Cancellable(old(orders)[idx.value].status) ==>
        reply == OrderReply(400, OrderError("Order cannot be cancelled")) &&
        orders == old(orders) && catalog.products == old(catalog.products)
      ensures var idx := IndexOfOrder(old(orders), orderId);
        idx.Some? && old(orders)[idx.value].userId == user && Cancellable(old(orders)[idx.value].status) ==>
        var order := old(orders)[idx.value];
        var restored := Completed(raisesAt, |order.items|);
        catalog.products == RestoreStock(old(catalog.products), order.items[..restored], failed) &&
        (restored < |order.items| ==> reply == OrderReply(500, ServerError) && orders == old(orders)) &&
        (restored == |order.items| ==>
          orders == old(orders)[idx.value := order.(status := Cancelled)] &&
          reply == OrderReply(200, OneOrder(order.(status := Cancelled))))
    {
      var idx := IndexOfOrder(orders, orderId);
      if idx.None? || orders[idx.value].userId != user {
        return OrderReply(404, OrderError("Order not found"));
      }
      var order := orders[idx.value];
      if !Cancellable(order.status) {
        return OrderReply(400, OrderError("Order cannot be cancelled"));
      }
      var raised := RestoreItems(catalog, order.items, failed, raisesAt);
      if raised {
        return OrderReply(500, ServerError);
      }
      SetStatusKeepsValid(orders, nextOrderId, idx.value, Cancelled);
      var updated := order.(status := Cancelled);
      orders := orders[idx.value := updated];
      reply := OrderReply(200, OneOrder(updated));
    }

    /**
     * `update_order_status`: staff only (403); an unknown order is 404; a
     * status outside the six choices is 400; any valid status replaces any
     * other, and stock is restored only on the move into `cancelled` from
     * another status. A product read or stock write of that restore that
     * raises (`raisesAt`) ends the request with a 500, the items before it
     * restored and the status not saved.
     */
    method UpdateOrderStatus(staff: bool, orderId: int, newStatus: Option<string>, catalog: Catalog, failed: set<int>,
                             raisesAt: Option<nat>)
      returns (reply: OrderReply)
      requires Valid() && catalog.Valid()
      modifies this, catalog
      ensures Valid() && catalog.Valid()
      ensures nextOrderId == old(nextOrderId)
      ensures catalog.categories == old(catalog.categories)
      ensures catalog.nextCategoryId == old(catalog.nextCategoryId) && catalog.nextProductId == old(catalog.nextProductId)
      ensures !staff ==>
        reply == OrderReply(403, OrderError("Admin access required")) &&
        orders == old(orders) && catalog.products == old(catalog.products)
      ensures staff && IndexOfOrder(old(orders), orderId).None? ==>
        reply == OrderReply(404, OrderError("Order not found")) &&
        orders == old(orders) && catalog.products == old(catalog.products)
      ensures staff && IndexOfOrder(old(orders), orderId).Some? && (newStatus.None? || ParseStatus(newStatus.value).None?) ==>
        reply == OrderReply(400, OrderError("Invalid status")) &&
        orders == old(orders) && catalog.products == old(catalog.products)
      ensures var idx := IndexOfOrder(old(orders), orderId);
        staff && idx.Some? && newStatus.Some? && ParseStatus(newStatus.value).Some? ==>
        var order := old(orders)[idx.value];
        var s := ParseStatus(newStatus.value).value;
        var restoring := s == Cancelled && order.status != Cancelled;
        var restored := Completed(raisesAt, |order.items|);
        (restoring ==> catalog.products == RestoreStock(old(catalog.products), order.items[..restored], failed)) &&
        (!restoring ==> catalog.products == old(catalog.products)) &&
        (restoring && restored < |order.items| ==> reply == OrderReply(500, ServerError) && orders == old(orders)) &&
        (!restoring || restored == |order.items| ==>
          orders == old(orders)[idx.value := order.(status := s)] &&
          reply == OrderReply(200, OneOrder(order.(status := s))))
    {
      if !staff {
        return OrderReply(403, OrderError("Admin access required"));
      }
      var idx := IndexOfOrder(orders, orderId);
      if idx.None? {
        return OrderReply(404, OrderError("Order not found"));
      }
      var order := orders[idx.value];
      var parsed := if newStatus.Some? then ParseStatus(newStatus.value) else None;
      if parsed.None? {
        return OrderReply(400, OrderError("Invalid status"));
      }
      var s := parsed.value;
      if s == Cancelled && order.status != Cancelled {
        var raised := RestoreItems(catalog, order.items, failed, raisesAt);
        if raised {
          return OrderReply(500, ServerError);
        }
      }
      SetStatusKeepsValid(orders, nextOrderId, idx.value, s);
      var updated := order.(status := s);
      orders := orders[idx.value := updated];
      reply := OrderReply(200, OneOrder(updated));
    }
  }
}
