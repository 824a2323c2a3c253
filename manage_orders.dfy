/**
 * The administrator's order page (accounts/static/js/manage_orders.js): the
 * username cache, the address link, the status filter, the listing and the
 * status change handler.
 */
module ManageOrders {
  import opened Common
  import opened AuthClientApi
  import opened OrdersPage
  import OrderModels

  /** `User ${userId}`: an absent id is written as `undefined`. */
  function UserLabel(userId: Option<int>): string {
    if userId.Some? then "User " + IntToString(userId.value) else "User undefined"
  }

  /** The cache answers an id when it holds a (truthy) name for it. */
  predicate Hit(names: map<Option<int>, string>, userId: Option<int>) {
    userId in names && names[userId] != ""
  }

  /**
   * The name `fetchUsername` yields, given the cache and the users whose
   * lookup succeeds (`lookups`): the cached name, else the looked-up name,
   * else the stand-in. An absent id never matches the users route.
   */
  function UsernameFor(names: map<Option<int>, string>, lookups: map<int, string>, userId: Option<int>): string {
    if Hit(names, userId) then names[userId]
    else if userId.Some? && userId.value in lookups then lookups[userId.value]
    else UserLabel(userId)
  }

  /** The cache keeps every name it answered with, and gains only looked-up names. */
  ghost predicate NamesGrown(now: map<Option<int>, string>, before: map<Option<int>, string>, lookups: map<int, string>) {
    (forall k :: Hit(before, k) ==> k in now && now[k] == before[k]) &&
    (forall k :: Hit(now, k) && !Hit(before, k) ==> k.Some? && k.value in lookups && now[k] == lookups[k.value])
  }

  /** A cache grown from the lookups names every user as it did before it grew. */
  lemma NamesStable(now: map<Option<int>, string>, before: map<Option<int>, string>, lookups: map<int, string>, userId: Option<int>)
    requires NamesGrown(now, before, lookups)
    ensures UsernameFor(now, lookups, userId) == UsernameFor(before, lookups, userId)
  {
  }

  /** The page's `usersCache`. */
  class UsernameCache {
    var names: map<Option<int>, string>

    constructor ()
      ensures names == map[]
    {
      names := map[];
    }

    /**
     * `fetchUsername`: a cache hit makes no request; otherwise the user is
     * looked up, only a successful lookup is cached, and a failed one gives
     * 'User <id>'.
     */
    method Fetch(userId: Option<int>, lookups: map<int, string>) returns (name: string, requested: bool)
      modifies this
      ensures requested <==> !Hit(old(names), userId)
      ensures name == UsernameFor(old(names), lookups, userId)
      ensures names ==
        if !Hit(old(names), userId) && userId.Some? && userId.value in lookups then old(names)[userId := lookups[userId.value]]
        else old(names)
    {
      if userId in names && names[userId] != "" {
        return names[userId], false;
      }
      requested := true;
      if userId.Some? && userId.value in lookups {
        name := lookups[userId.value];
        names := names[userId := name];
      } else {
        name := UserLabel(userId);
      }
    }
  }

  /** One more lookup keeps the cache grown from the lookups. */
  lemma NamesGrowStep(now: map<Option<int>, string>, before: map<Option<int>, string>, lookups: map<int, string>, userId: Option<int>)
    requires NamesGrown(now, before, lookups)
    ensures NamesGrown(if !Hit(now, userId) && userId.Some? && userId.value in lookups then now[userId := lookups[userId.value]] else now,
                       before, lookups)
  {
  }

  /** The address shown on a card: a maps link, or plain text. */
  datatype AddressShown = MapLink(url: string, text: string) | PlainText(text: string)

  /**
   * `createAddressLink`: with both coordinates present (their decimal text
   * is never empty) the address is a maps link labelled with the address or
   * 'View Location'; otherwise the address, else 'N/A'.
   */
  function AddressLink(j: OrderJson): (a: AddressShown)
    ensures a.MapLink? <==> j.latitude.Some? && j.latitude.value != "" && j.longitude.Some? && j.longitude.value != ""
    ensures a.MapLink? ==> a.url == "https://www.google.com/maps?q=" + j.latitude.value + "," + j.longitude.value
    ensures a.MapLink? ==> a.text == if j.deliveryAddress != "" then j.deliveryAddress else "View Location"
    ensures a.PlainText? ==> a.text == if j.deliveryAddress != "" then j.deliveryAddress else "N/A"
  {
    if j.latitude.Some? && j.latitude.value != "" && j.longitude.Some? && j.longitude.value != "" then
      MapLink("https://www.google.com/maps?q=" + j.latitude.value + "," + j.longitude.value,
              if j.deliveryAddress != "" then j.deliveryAddress else "View Location")
    else if j.deliveryAddress != "" then PlainText(j.deliveryAddress)
    else PlainText("N/A")
  }

  /**
   * A stored location always gives a link, even at latitude or longitude 0,
   * because the coordinates reach the page as decimal text.
   */
  lemma StoredLocationLinks(o: OrderModels.Order, decimalText: real -> string)
    requires forall x :: decimalText(x) != ""
    ensures AddressLink(JsonOf(o, decimalText)).MapLink? <==> o.delivery.latitude.Some? && o.delivery.longitude.Some?
  {
    var j := JsonOf(o, decimalText);
    if o.delivery.latitude.Some? && o.delivery.longitude.Some? {
      var lat: real, lng: real := o.delivery.latitude.value, o.delivery.longitude.value;
      assert j.latitude == Some(decimalText(lat)) && decimalText(lat) != "";
      assert j.longitude == Some(decimalText(lng)) && decimalText(lng) != "";
    }
  }

  /**
   * The status filter: '' keeps every order; otherwise exactly the orders
   * whose status equals the filter are kept, in their order.
   */
  function Filtered(orders: seq<OrderJson>, filter: string): (r: seq<OrderJson>)
    ensures filter == "" ==> r == orders
    ensures |r| <= |orders|
    ensures filter != "" ==> forall i :: 0 <= i < |r| ==> r[i].status == filter
    ensures forall o :: o in r <==> o in orders && (filter == "" || o.status == filter)
  {
    if filter == "" || orders == [] then orders
    else
      var init := Filtered(orders[..|orders| - 1], filter);
      var last := orders[|orders| - 1];
      assert orders == orders[..|orders| - 1] + [last];
      if last.status == filter then init + [last] else init
  }

  /** Filtering twice by the same status is filtering once. */
  lemma {:induction false} FilteredIdempotent(orders: seq<OrderJson>, filter: string)
    ensures Filtered(Filtered(orders, filter), filter) == Filtered(orders, filter)
  {
    if filter != "" && orders != [] {
      var init := orders[..|orders| - 1];
      var last := orders[|orders| - 1];
      FilteredIdempotent(init, filter);
      var fi := Filtered(init, filter);
      if last.status == filter {
        var r := fi + [last];
        assert r[..|r| - 1] == fi;
      }
    }
  }

  /** One administrator card: the order, the customer's name, the phone, the address and the status selector. */
  datatype ManagedCard = ManagedCard(
    orderId: int, orderNumber: string, username: string, selectedStatus: string, customer: string,
    phone: string, itemCount: nat, paymentMethod: string, address: AddressShown, lines: seq<ItemLine>)

  /** The card for an order whose user is named `username`. */
  function ManagedCardOf(j: OrderJson, username: string): (c: ManagedCard)
    ensures c.customer == if j.deliveryName != "" then j.deliveryName else username
    ensures c.phone == if j.deliveryPhone != "" then j.deliveryPhone else "N/A"
    ensures c.itemCount == |j.items| && c.address == AddressLink(j) && c.selectedStatus == j.status
  {
    ManagedCard(j.id, j.orderNumber, username, j.status, if j.deliveryName != "" then j.deliveryName else username,
                if j.deliveryPhone != "" then j.deliveryPhone else "N/A", |j.items|, j.paymentMethod, AddressLink(j), j.items)
  }

  /** The cards for the orders, each user named through the cache as it was before the listing. */
  function ManagedCardsOf(names: map<Option<int>, string>, lookups: map<int, string>, orders: seq<OrderJson>): (r: seq<ManagedCard>)
    ensures |r| == |orders|
  {
    if orders == [] then []
    else ManagedCardsOf(names, lookups, orders[..|orders| - 1]) +
         [ManagedCardOf(orders[|orders| - 1], UsernameFor(names, lookups, orders[|orders| - 1].userId))]
  }

  /** The i-th card is the card of the i-th order. */
  lemma {:induction false} ManagedCardAt(names: map<Option<int>, string>, lookups: map<int, string>, orders: seq<OrderJson>, i: nat)
    requires i < |orders|
    ensures ManagedCardsOf(names, lookups, orders)[i] == ManagedCardOf(orders[i], UsernameFor(names, lookups, orders[i].userId))
  {
    if i < |orders| - 1 {
      var init := orders[..|orders| - 1];
      ManagedCardAt(names, lookups, init, i);
      assert init[i] == orders[i];
    }
  }

  /**
   * Every order of the service, as it is served, is shown under its
   * delivery name or else as 'User undefined', whoever owns it and
   * whatever the lookups know.
   */
  lemma ServedOrdersLackOwner(o: OrderModels.Order, decimalText: real -> string, names: map<Option<int>, string>, lookups: map<int, string>)
    requires !Hit(names, None)
    ensures var j := JsonAsServed(o, decimalText);
      ManagedCardOf(j, UsernameFor(names, lookups, j.userId)).customer ==
        if o.delivery.name != "" then o.delivery.name else "User undefined"
  {
  }

  /**
   * With the owner in the order's JSON, an order without a delivery name is
   * shown under its owner's username when the lookup succeeds.
   */
  lemma OwnerNamedWhenServed(o: OrderModels.Order, decimalText: real -> string, names: map<Option<int>, string>, lookups: map<int, string>)
    requires o.delivery.name == "" && !Hit(names, Some(o.userId)) && o.userId in lookups
    ensures var j := JsonOf(o, decimalText);
      ManagedCardOf(j, UsernameFor(names, lookups, j.userId)).customer == lookups[o.userId]
  {
  }

  datatype ManageView = LoadFailed | NoOrdersFound | ManagedCards(cards: seq<ManagedCard>)

  lemma ManagedCardsStep(names: map<Option<int>, string>, lookups: map<int, string>, orders: seq<OrderJson>, i: nat)
    requires i < |orders|
    ensures ManagedCardsOf(names, lookups, orders[..i + 1]) ==
      ManagedCardsOf(names, lookups, orders[..i]) + [ManagedCardOf(orders[i], UsernameFor(names, lookups, orders[i].userId))]
  {
    assert orders[..i + 1][..i] == orders[..i];
  }

  /** One pass of the listing loop: the card, with its user named through the cache. */
  method CardFor(cache: UsernameCache, j: OrderJson, lookups: map<int, string>, ghost before: map<Option<int>, string>)
    returns (card: ManagedCard)
    requires NamesGrown(cache.names, before, lookups)
    modifies cache
    ensures card == ManagedCardOf(j, UsernameFor(before, lookups, j.userId))
    ensures NamesGrown(cache.names, before, lookups)
  {
    NamesStable(cache.names, before, lookups, j.userId);
    NamesGrowStep(cache.names, before, lookups, j.userId);
    var username, _ := cache.Fetch(j.userId, lookups);
    card := ManagedCardOf(j, username);
  }

  /**
   * `loadAllOrders`: a failed load shows 'Failed to load orders'; an empty
   * filtered list shows 'No orders found'; otherwise one card per kept
   * order, in order, each user named once through the cache.
   */
  method LoadAllOrders(cache: UsernameCache, filter: string, reply: Reply<OrdersPayload>, lookups: map<int, string>)
    returns (view: ManageView)
    modifies cache
    ensures !ApiCall(reply, ThrownOrders).success ==> view == LoadFailed && cache.names == old(cache.names)
    ensures ApiCall(reply, ThrownOrders).success && Filtered(ApiCall(reply, ThrownOrders).data.orders, filter) == [] ==>
      view == NoOrdersFound && cache.names == old(cache.names)
    ensures ApiCall(reply, ThrownOrders).success && Filtered(ApiCall(reply, ThrownOrders).data.orders, filter) != [] ==>
      view == ManagedCards(ManagedCardsOf(old(cache.names), lookups, Filtered(ApiCall(reply, ThrownOrders).data.orders, filter)))
    ensures NamesGrown(cache.names, old(cache.names), lookups)
  {
    var response := ApiCall(reply, ThrownOrders);
    if !response.success {
      return LoadFailed;
    }
    var orders := Filtered(response.data.orders, filter);
    if |orders| == 0 {
      return NoOrdersFound;
    }
    ghost var before := cache.names;
    var cards: seq<ManagedCard> := [];
    var i := 0;
    while i < |orders|
      invariant 0 <= i <= |orders|
      invariant cards == ManagedCardsOf(before, lookups, orders[..i])
      invariant NamesGrown(cache.names, before, lookups)
    {
      var card := CardFor(cache, orders[i], lookups, before);
      ManagedCardsStep(before, lookups, orders, i);
      cards := cards + [card];
      i := i + 1;
    }
    assert orders[..i] == orders;
    view := ManagedCards(cards);
  }

  /** The body of a status update: `{status}`. */
  datatype StatusRequest = StatusRequest(status: string)

  /**
   * `handleStatusChange`: the update is sent only when the user confirms,
   * its outcome is announced, and the list is loaded again with the current
   * filter in every case.
   */
  method HandleStatusChange(cache: UsernameCache, confirmed: bool, newStatus: string, filter: string,
                            updateReply: Reply<OrdersPayload>, listReply: Reply<OrdersPayload>, lookups: map<int, string>)
    returns (sent: Option<StatusRequest>, notice: Option<string>, view: ManageView)
    modifies cache
    ensures sent.Some? <==> confirmed
    ensures sent.Some? ==> sent.value == StatusRequest(newStatus)
    ensures !confirmed ==> notice.None?
    ensures confirmed ==> notice == Some(if ApiCall(updateReply, ThrownOrders).success then "Order status updated" else "Failed to update status")
    ensures var listed := ApiCall(listReply, ThrownOrders);
      var kept := Filtered(listed.data.orders, filter);
      view == if !listed.success then LoadFailed else if kept == [] then NoOrdersFound
              else ManagedCards(ManagedCardsOf(old(cache.names), lookups, kept))
    ensures NamesGrown(cache.names, old(cache.names), lookups)
  {
    sent, notice := None, None;
    if confirmed {
      sent := Some(StatusRequest(newStatus));
      var response := ApiCall(updateReply, ThrownOrders);
      notice := Some(if response.success then "Order status updated" else "Failed to update status");
    }
    view := LoadAllOrders(cache, filter, listReply, lookups);
  }
}
