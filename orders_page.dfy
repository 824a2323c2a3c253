/**
 * The auth service's "my orders" page (accounts/static/js/orders.js): an
 * order as the browser receives it, the card listed for it with its cancel
 * button, the listing, and the cancel handler.
 */
module OrdersPage {
  import opened Common
  import opened AuthClientApi
  import OrderModels

  /** One item of an order as the browser reads it. */
  datatype ItemLine = ItemLine(productName: string, quantity: int)

  /**
   * One order as the browser reads it. Decimal columns arrive as their
   * text (a stored coordinate is never null-like once set); `userId` is
   * `None` when the order's JSON has no `user_id`.
   */
  datatype OrderJson = OrderJson(
    id: int, orderNumber: string, status: string, userId: Option<int>,
    deliveryName: string, deliveryPhone: string, deliveryAddress: string,
    latitude: Option<string>, longitude: Option<string>, paymentMethod: string, items: seq<ItemLine>)

  function LinesOf(items: seq<OrderModels.OrderItem>): (r: seq<ItemLine>)
    ensures |r| == |items|
    ensures forall i :: 0 <= i < |items| ==> r[i] == ItemLine(items[i].productName, items[i].quantity)
  {
    if items == [] then [] else LinesOf(items[..|items| - 1]) + [ItemLine(items[|items| - 1].productName, items[|items| - 1].quantity)]
  }

  function TextOf(x: Option<real>, decimalText: real -> string): Option<string> {
    if x.Some? then Some(decimalText(x.value)) else None
  }

  /**
   * An order with its owner, as the pages need it: the status's stored
   * name, the delivery columns, the coordinates' decimal text and the items.
   */
  function JsonOf(o: OrderModels.Order, decimalText: real -> string): (j: OrderJson)
    ensures j.id == o.id && j.orderNumber == o.orderNumber && j.userId == Some(o.userId)
    ensures j.status == OrderModels.StatusName(o.status)
    ensures j.deliveryName == o.delivery.name && j.deliveryPhone == o.delivery.phone
    ensures j.deliveryAddress == o.delivery.address && j.paymentMethod == o.delivery.paymentMethod
    ensures j.latitude.Some? <==> o.delivery.latitude.Some?
    ensures j.latitude.Some? ==> j.latitude.value == decimalText(o.delivery.latitude.value)
    ensures j.longitude.Some? <==> o.delivery.longitude.Some?
    ensures j.longitude.Some? ==> j.longitude.value == decimalText(o.delivery.longitude.value)
    ensures |j.items| == |o.items|
    ensures forall i :: 0 <= i < |o.items| ==> j.items[i] == ItemLine(o.items[i].productName, o.items[i].quantity)
  {
    OrderJson(o.id, o.orderNumber, OrderModels.StatusName(o.status), Some(o.userId),
              o.delivery.name, o.delivery.phone, o.delivery.address,
              TextOf(o.delivery.latitude, decimalText), TextOf(o.delivery.longitude, decimalText),
              o.delivery.paymentMethod, LinesOf(o.items))
  }

  /**
   * The order as `OrderSerializer` actually renders it: its field list has
   * no `user_id`, so the browser reads `order.user_id` as undefined.
   */
  function JsonAsServed(o: OrderModels.Order, decimalText: real -> string): (j: OrderJson)
    ensures j.userId.None?
    ensures j.id == o.id && j.status == OrderModels.StatusName(o.status) && j.deliveryName == o.delivery.name
  {
    JsonOf(o, decimalText).(userId := None)
  }

  /** One listed order: its number, shown status, line count, payment, lines and cancel button. */
  datatype OrderCard = OrderCard(
    orderId: int, orderNumber: string, statusLabel: string, itemCount: nat,
    paymentMethod: string, lines: seq<ItemLine>, cancelButton: bool)

  /** `order.status === 'pending' || order.status === 'confirmed'`. */
  predicate OffersCancel(status: string) {
    status == "pending" || status == "confirmed"
  }

  /**
   * The card for an order: the count is the number of lines, not of units,
   * and the cancel button is shown exactly for pending and confirmed orders.
   */
  function CardOf(j: OrderJson): (c: OrderCard)
    ensures c.orderId == j.id && c.orderNumber == j.orderNumber && c.paymentMethod == j.paymentMethod
    ensures c.itemCount == |j.items| && c.lines == j.items
    ensures c.cancelButton <==> j.status == "pending" || j.status == "confirmed"
    ensures |c.statusLabel| == |j.status|
  {
    OrderCard(j.id, j.orderNumber, OrderModels.Upper(j.status), |j.items|, j.paymentMethod, j.items, OffersCancel(j.status))
  }

  /** The page offers cancelling exactly the orders the order service would cancel. */
  lemma CancelButtonMatchesService(o: OrderModels.Order, decimalText: real -> string)
    ensures CardOf(JsonOf(o, decimalText)).cancelButton <==> o.status == OrderModels.Pending || o.status == OrderModels.Confirmed
  {
    OrderModels.StatusNamesRoundTrip(o.status, OrderModels.Pending);
    OrderModels.StatusNamesRoundTrip(o.status, OrderModels.Confirmed);
  }

  /** A reply body of the orders list: the orders, or an error text. */
  datatype OrdersPayload = OrdersPayload(orders: seq<OrderJson>, error: string)

  function ThrownOrders(message: string): OrdersPayload {
    OrdersPayload([], message)
  }

  datatype OrdersView = NoOrders | Cards(cards: seq<OrderCard>)

  /** What `loadOrders` shows for a reply: 'No orders found' on failure or an empty list, else the cards. */
  function OrdersViewOf(reply: Reply<OrdersPayload>): (v: OrdersView)
    ensures v == NoOrders <==> !ApiCall(reply, ThrownOrders).success || ApiCall(reply, ThrownOrders).data.orders == []
    ensures v.Cards? ==> v.cards == Map(CardOf, ApiCall(reply, ThrownOrders).data.orders)
  {
    var e := ApiCall(reply, ThrownOrders);
    if !e.success || |e.data.orders| == 0 then NoOrders else Cards(Map(CardOf, e.data.orders))
  }

  /** `loadOrders`: the `forEach` that appends one card per order. */
  method LoadOrders(reply: Reply<OrdersPayload>) returns (view: OrdersView)
    ensures view == OrdersViewOf(reply)
  {
    var response := ApiCall(reply, ThrownOrders);
    if !response.success || |response.data.orders| == 0 {
      return NoOrders;
    }
    var orders := response.data.orders;
    var cards: seq<OrderCard> := [];
    var i := 0;
    while i < |orders|
      invariant 0 <= i <= |orders|
      invariant cards == Map(CardOf, orders[..i])
    {
      assert orders[..i + 1][..i] == orders[..i];
      cards := cards + [CardOf(orders[i])];
      i := i + 1;
    }
    assert orders[..i] == orders;
    view := Cards(cards);
  }

  /**
   * `handleCancelOrder`: nothing is sent unless the user confirms; a
   * successful cancel shows its notice and lists the orders again, a failed
   * one leaves the page as it is.
   */
  method HandleCancelOrder(confirmed: bool, cancelReply: Reply<OrdersPayload>, listReply: Reply<OrdersPayload>)
    returns (sent: bool, notice: Option<string>, reloaded: Option<OrdersView>)
    ensures sent <==> confirmed
    ensures notice.Some? <==> confirmed && ApiCall(cancelReply, ThrownOrders).success
    ensures notice.Some? ==> notice.value == "Order cancelled successfully"
    ensures reloaded.Some? <==> confirmed && ApiCall(cancelReply, ThrownOrders).success
    ensures reloaded.Some? ==> reloaded.value == OrdersViewOf(listReply)
  {
    sent, notice, reloaded := false, None, None;
    if !confirmed {
      return;
    }
    sent := true;
    var response := ApiCall(cancelReply, ThrownOrders);
    if response.success {
      notice := Some("Order cancelled successfully");
      var view := LoadOrders(listReply);
      reloaded := Some(view);
    }
  }

  /** The page start: with a (truthy) token the orders are listed, otherwise the page goes to the login. */
  method Start(token: Option<string>, listReply: Reply<OrdersPayload>) returns (view: Option<OrdersView>, target: Option<string>)
    ensures token.Some? && token.value != "" ==> view == Some(OrdersViewOf(listReply)) && target.None?
    ensures !(token.Some? && token.value != "") ==> view.None? && target == Some("/login/")
  {
    if token.Some? && token.value != "" {
      var v := LoadOrders(listReply);
      return Some(v), None;
    }
    return None, Some("/login/");
  }
}
