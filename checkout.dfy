/**
 * The auth service's checkout page (accounts/static/js/checkout.js): the
 * address details read from the chosen place, the order payload and its
 * checks, the place-order button, the order summary and the name autofill.
 * The map, the search box and the geocoder are not modelled: the chosen
 * place arrives as data.
 */
module Checkout {
  import opened Common
  import opened AuthClientApi
  import opened AuthCartSummary
  import OrderModels

  /** One entry of a place's `address_components`. */
  datatype AddressComponent = AddressComponent(types: seq<string>, longName: string, shortName: string)

  /**
   * A chosen place: its `formatted_address`, its components (absent when the
   * place has none) and its location.
   */
  datatype Place = Place(formattedAddress: string, components: Option<seq<AddressComponent>>, lat: real, lng: real)

  /** The five address parts read from the components. */
  datatype AddressParts = AddressParts(street: string, city: string, state: string, postalCode: string, country: string)

  function ComponentsOf(place: Place): seq<AddressComponent> {
    if place.components.Some? then place.components.value else []
  }

  predicate IsStreet(c: AddressComponent) {
    "street_number" in c.types || "route" in c.types
  }

  /** Each street component's long name followed by one space, in component order. */
  function StreetOf(cs: seq<AddressComponent>): string {
    if cs == [] then ""
    else StreetOf(cs[..|cs| - 1]) + (if IsStreet(cs[|cs| - 1]) then cs[|cs| - 1].longName + " " else "")
  }

  /** The short or the long name of a component. */
  function NameOf(c: AddressComponent, short: bool): string {
    if short then c.shortName else c.longName
  }

  /** The name of the last component of type `t`, or '' when none has it. */
  function LastOf(cs: seq<AddressComponent>, t: string, short: bool): string {
    if cs == [] then ""
    else if t in cs[|cs| - 1].types then NameOf(cs[|cs| - 1], short)
    else LastOf(cs[..|cs| - 1], t, short)
  }

  /**
   * What the extraction reads: the street from the street-number and route
   * components, the city from `locality`, the state's short name from
   * `administrative_area_level_1`, the postal code and the country.
   */
  function PartsOf(cs: seq<AddressComponent>): AddressParts {
    AddressParts(StreetOf(cs), LastOf(cs, "locality", false), LastOf(cs, "administrative_area_level_1", true),
                 LastOf(cs, "postal_code", false), LastOf(cs, "country", false))
  }

  /** The last matching component wins, and with no match the part stays ''. */
  lemma {:induction false} LastOfIsLastMatch(cs: seq<AddressComponent>, t: string, short: bool)
    ensures (forall i :: 0 <= i < |cs| ==> t !in cs[i].types) ==> LastOf(cs, t, short) == ""
    ensures forall i :: 0 <= i < |cs| && t in cs[i].types && (forall j :: i < j < |cs| ==> t !in cs[j].types) ==>
      LastOf(cs, t, short) == NameOf(cs[i], short)
  {
    if cs != [] {
      var init := cs[..|cs| - 1];
      LastOfIsLastMatch(init, t, short);
      assert forall i :: 0 <= i < |init| ==> init[i] == cs[i];
    }
  }

  predicate AllSpace(s: string) {
    forall i :: 0 <= i < |s| ==> IsSpace(s[i])
  }

  lemma AllSpaceConcat(a: string, b: string)
    ensures AllSpace(a + b) <==> AllSpace(a) && AllSpace(b)
  {
    if AllSpace(a) && AllSpace(b) {
      forall i | 0 <= i < |a + b| ensures IsSpace((a + b)[i]) {
        if i >= |a| {
          assert (a + b)[i] == b[i - |a|];
        }
      }
    }
    if AllSpace(a + b) {
      assert forall i :: 0 <= i < |a| ==> a[i] == (a + b)[i];
      assert forall i :: 0 <= i < |b| ==> b[i] == (a + b)[|a| + i];
    }
  }

  lemma TrimBlank(s: string)
    ensures Trim(s) == "" <==> AllSpace(s)
  {
  }

  /** Every street component's long name is blank. */
  predicate StreetNamesBlank(cs: seq<AddressComponent>) {
    forall i :: 0 <= i < |cs| && IsStreet(cs[i]) ==> AllSpace(cs[i].longName)
  }

  lemma StreetNamesBlankSplit(cs: seq<AddressComponent>)
    requires cs != []
    ensures StreetNamesBlank(cs) <==>
      StreetNamesBlank(cs[..|cs| - 1]) && (IsStreet(cs[|cs| - 1]) ==> AllSpace(cs[|cs| - 1].longName))
  {
    var init := cs[..|cs| - 1];
    assert forall i :: 0 <= i < |init| ==> init[i] == cs[i];
  }

  /** The street is blank exactly when every street component's long name is blank. */
  lemma {:induction false} StreetBlank(cs: seq<AddressComponent>)
    ensures AllSpace(StreetOf(cs)) <==> StreetNamesBlank(cs)
  {
    if cs != [] {
      var init := cs[..|cs| - 1];
      var last := cs[|cs| - 1];
      StreetBlank(init);
      StreetNamesBlankSplit(cs);
      if IsStreet(last) {
        assert AllSpace(" ");
        AllSpaceConcat(last.longName, " ");
        AllSpaceConcat(StreetOf(init), last.longName + " ");
        assert StreetOf(cs) == StreetOf(init) + (last.longName + " ");
      } else {
        assert StreetOf(cs) == StreetOf(init) + "" == StreetOf(init);
      }
    }
  }

  /**
   * The `forEach` over the components in `placeOrder` (and in
   * `displayAddressDetails`): every street component appends its long
   * name and a space; each other matching type overwrites its part.
   */
  method ExtractAddress(place: Place) returns (parts: AddressParts)
    ensures parts == PartsOf(ComponentsOf(place))
  {
    var street, city, state, postalCode, country := "", "", "", "", "";
    if place.components.Some? {
      var cs := place.components.value;
      var i := 0;
      while i < |cs|
        invariant 0 <= i <= |cs|
        invariant AddressParts(street, city, state, postalCode, country) == PartsOf(cs[..i])
      {
        var c := cs[i];
        assert cs[..i + 1][..i] == cs[..i];
        if "street_number" in c.types || "route" in c.types {
          street := street + c.longName + " ";
        }
        if "locality" in c.types {
          city := c.longName;
        }
        if "administrative_area_level_1" in c.types {
          state := c.shortName;
        }
        if "postal_code" in c.types {
          postalCode := c.longName;
        }
        if "country" in c.types {
          country := c.longName;
        }
        i := i + 1;
      }
      assert cs[..i] == cs;
    }
    parts := AddressParts(street, city, state, postalCode, country);
  }

  /** The address panel: the formatted address, and city, state and ZIP or 'N/A'. */
  datatype AddressPanel = AddressPanel(formattedAddress: string, city: string, state: string, postalCode: string)

  /** `x || 'N/A'`. */
  function OrNA(x: string): string {
    if x != "" then x else "N/A"
  }

  /**
   * `displayAddressDetails`: the same extraction as `placeOrder`, shown with
   * 'N/A' for each empty part.
   */
  method DisplayAddressDetails(place: Place) returns (panel: AddressPanel)
    ensures var parts := PartsOf(ComponentsOf(place));
      panel == AddressPanel(place.formattedAddress, OrNA(parts.city), OrNA(parts.state), OrNA(parts.postalCode))
  {
    var parts := ExtractAddress(place);
    panel := AddressPanel(place.formattedAddress, OrNA(parts.city), OrNA(parts.state), OrNA(parts.postalCode));
  }

  /** `street.trim() || selectedPlace.formatted_address`. */
  function DeliveryAddress(street: string, formatted: string): (a: string)
    ensures Trim(street) != "" ==> a == Trim(street)
    ensures Trim(street) == "" ==> a == formatted
  {
    if Trim(street) != "" then Trim(street) else formatted
  }

  /** A place without street components is delivered to its formatted address. */
  lemma NoStreetUsesFormatted(place: Place)
    requires forall i :: 0 <= i < |ComponentsOf(place)| ==> !IsStreet(ComponentsOf(place)[i])
    ensures DeliveryAddress(PartsOf(ComponentsOf(place)).street, place.formattedAddress) == place.formattedAddress
  {
    StreetBlank(ComponentsOf(place));
    TrimBlank(PartsOf(ComponentsOf(place)).street);
  }

  /** The body `placeOrder` posts. */
  datatype OrderData = OrderData(
    name: string, phone: string, address: string, city: string, state: string, postalCode: string,
    country: string, latitude: real, longitude: real, paymentMethod: string)

  /** The payload for checked name and phone, the chosen payment method and the chosen place. */
  function OrderDataOf(name: string, phone: string, paymentMethod: string, place: Place): (d: OrderData)
    ensures var parts := PartsOf(ComponentsOf(place));
      d.address == DeliveryAddress(parts.street, place.formattedAddress) &&
      d.city == parts.city && d.state == parts.state && d.postalCode == parts.postalCode && d.country == parts.country
    ensures d.name == name && d.phone == phone && d.paymentMethod == paymentMethod
    ensures d.latitude == place.lat && d.longitude == place.lng
  {
    var parts := PartsOf(ComponentsOf(place));
    OrderData(name, phone, DeliveryAddress(parts.street, place.formattedAddress), parts.city, parts.state,
              parts.postalCode, parts.country, place.lat, place.lng, paymentMethod)
  }

  /** The order service's view of the payload: every field is present. */
  function RequestOf(d: OrderData): OrderModels.DeliveryRequest {
    OrderModels.DeliveryRequest(Some(d.name), Some(d.phone), Some(d.address), Some(d.city), Some(d.state),
      Some(d.postalCode), Some(d.country), Some(d.latitude), Some(d.longitude), Some(d.paymentMethod))
  }

  /**
   * The page always sends every delivery field, so the order service's
   * defaults never apply: a place without a country component gives an
   * order whose country is '' rather than 'India'.
   */
  lemma PayloadOverridesDefaults(name: string, phone: string, paymentMethod: string, place: Place)
    ensures var d := OrderDataOf(name, phone, paymentMethod, place);
      var delivery := OrderModels.WithDefaults(RequestOf(d));
      delivery.name == name && delivery.phone == phone && delivery.country == d.country &&
      delivery.paymentMethod == paymentMethod && delivery.latitude == Some(place.lat)
    ensures (forall i :: 0 <= i < |ComponentsOf(place)| ==> "country" !in ComponentsOf(place)[i].types) ==>
      OrderModels.WithDefaults(RequestOf(OrderDataOf(name, phone, paymentMethod, place))).country == ""
  {
    LastOfIsLastMatch(ComponentsOf(place), "country", false);
  }

  /** A body from the order service: only its `error` text is read here. */
  datatype CreatedPayload = CreatedPayload(error: string)

  function ThrownCreated(message: string): CreatedPayload {
    CreatedPayload(message)
  }

  /** The place-order button as the user sees it. */
  datatype ButtonLook = ButtonLook(disabled: bool, text: string)

  class PlaceOrderButton {
    var disabled: bool
    var text: string

    constructor ()
      ensures !disabled && text == "Place Order"
    {
      disabled := false;
      text := "Place Order";
    }
  }

  /** The notice `createOrder` shows. */
  function CreatedNotice(e: Envelope<CreatedPayload>): string {
    if e.success then "Order placed successfully!"
    else if e.data.error != "" then e.data.error
    else "Failed to place order"
  }

  /**
   * `placeOrder`: the trimmed name, then the trimmed phone, then the chosen
   * place are checked, and the first that is missing stops with its notice
   * and nothing sent. Otherwise the payload is posted while the button is
   * disabled and reads 'Placing Order...'; afterwards the button is back to
   * 'Place Order' whatever the outcome, and the page moves to the orders
   * list only on success.
   */
  method PlaceOrder(client: Client, nameInput: string, phoneInput: string, paymentMethod: string, selected: Option<Place>,
                    button: PlaceOrderButton, reply: Reply<CreatedPayload>)
    returns (notice: string, sent: Option<RequestOptions<OrderData>>, during: Option<ButtonLook>, target: Option<string>)
    modifies button
    ensures Trim(nameInput) == "" ==> notice == "Please enter your full name"
    ensures Trim(nameInput) != "" && Trim(phoneInput) == "" ==> notice == "Please enter your phone number"
    ensures Trim(nameInput) != "" && Trim(phoneInput) != "" && selected.None? ==> notice == "Please select a delivery address"
    ensures Trim(nameInput) == "" || Trim(phoneInput) == "" || selected.None? ==>
      sent.None? && during.None? && target.None? && button.disabled == old(button.disabled) && button.text == old(button.text)
    ensures Trim(nameInput) != "" && Trim(phoneInput) != "" && selected.Some? ==>
      sent.Some? && sent.value.httpMethod == "POST" &&
      sent.value.body == Some(OrderDataOf(Trim(nameInput), Trim(phoneInput), paymentMethod, selected.value)) &&
      during == Some(ButtonLook(true, "Placing Order...")) &&
      !button.disabled && button.text == "Place Order" &&
      notice == CreatedNotice(ApiCall(reply, ThrownCreated)) &&
      target == (if ApiCall(reply, ThrownCreated).success then Some("/orders") else None)
  {
    sent, during, target := None, None, None;
    var name := Trim(nameInput);
    var phone := Trim(phoneInput);
    if name == "" {
      notice := "Please enter your full name";
      return;
    }
    if phone == "" {
      notice := "Please enter your phone number";
      return;
    }
    if selected.None? {
      notice := "Please select a delivery address";
      return;
    }
    var place := selected.value;
    var parts := ExtractAddress(place);
    var data := OrderData(name, phone, DeliveryAddress(parts.street, place.formattedAddress), parts.city, parts.state,
                          parts.postalCode, parts.country, place.lat, place.lng, paymentMethod);
    var options, look;
    notice, options, look, target := Submit(client, data, button, reply);
    sent, during := Some(options), Some(look);
  }

  /**
   * The request stage of `placeOrder`: the button is disabled and relabelled
   * while the order is posted, and restored afterwards.
   */
  method Submit(client: Client, data: OrderData, button: PlaceOrderButton, reply: Reply<CreatedPayload>)
    returns (notice: string, sent: RequestOptions<OrderData>, during: ButtonLook, target: Option<string>)
    modifies button
    ensures sent.httpMethod == "POST" && sent.body == Some(data)
    ensures "Authorization" in sent.headers <==> client.token.Some? && Trim(client.token.value) != ""
    ensures during == ButtonLook(true, "Placing Order...")
    ensures !button.disabled && button.text == "Place Order"
    ensures notice == CreatedNotice(ApiCall(reply, ThrownCreated))
    ensures target == if ApiCall(reply, ThrownCreated).success then Some("/orders") else None
  {
    button.disabled := true;
    button.text := "Placing Order...";
    during := ButtonLook(button.disabled, button.text);
    sent := client.Options("POST", Some(data), true);
    var response := ApiCall(reply, ThrownCreated);
    notice := CreatedNotice(response);
    button.disabled := false;
    button.text := "Place Order";
    target := if response.success then Some("/orders") else None;
  }

  /** What `loadOrderSummary` shows: a redirect to the cart, or the rows and the totals. */
  datatype SummaryView = BackToCart(notice: string, target: string) | Summary(rows: seq<SummaryRow>, totals: Totals)

  /**
   * `loadOrderSummary`: an empty cart sends the user back to the cart page
   * and nothing is listed; otherwise the rows and totals are those of the
   * cart page's listing.
   */
  method LoadOrderSummary(client: Client, cache: ProductCache, cartReply: Reply<CartPayload>, available: map<int, ProductInfo>)
    returns (view: SummaryView)
    modifies client`cartCount, cache
    ensures client.cartCount == old(client.cartCount)
    ensures FetchedItems(client.token, cartReply) == [] ==>
      view == BackToCart("Your cart is empty", "/cart") && cache.entries == old(cache.entries)
    ensures FetchedItems(client.token, cartReply) != [] ==>
      view == Summary(RowsFor(old(cache.entries), available, FetchedItems(client.token, cartReply)),
                      TotalsOf(EntriesSubtotal(FetchedItems(client.token, cartReply))))
    ensures GrownFrom(cache.entries, old(cache.entries), available)
  {
    var items, _ := client.GetCart(cartReply, true);
    if |items| == 0 {
      return BackToCart("Your cart is empty", "/cart");
    }
    var rows, subtotal := Summarise(cache, items, available);
    view := Summary(rows, TotalsOf(subtotal));
  }

  /** The autofilled name: `${first || ''} ${last || ''}`, trimmed, else the username. */
  function FullName(first: Option<string>, last: Option<string>, username: string): (r: string)
    ensures Trim(ValueOr(first, "") + " " + ValueOr(last, "")) != "" ==> r == Trim(ValueOr(first, "") + " " + ValueOr(last, ""))
    ensures Trim(ValueOr(first, "") + " " + ValueOr(last, "")) == "" ==> r == username
  {
    var joined := Trim(ValueOr(first, "") + " " + ValueOr(last, ""));
    if joined != "" then joined else username
  }

  /** A profile with no first or last name (or blank ones) autofills the username. */
  lemma BlankNamesGiveUsername(first: Option<string>, last: Option<string>, username: string)
    requires AllSpace(ValueOr(first, "")) && AllSpace(ValueOr(last, ""))
    ensures FullName(first, last, username) == username
  {
    var a, b := ValueOr(first, ""), ValueOr(last, "");
    AllSpaceConcat(a, " ");
    AllSpaceConcat(a + " ", b);
    TrimBlank(a + " " + b);
  }

  /** The profile fields the autofill reads. */
  datatype Profile = Profile(firstName: Option<string>, lastName: Option<string>, username: string)

  /**
   * The page start: without a (truthy) token the page goes to the login;
   * otherwise a profile that loads fills in the delivery name.
   */
  method Start(token: Option<string>, profile: Option<Profile>) returns (target: Option<string>, deliveryName: Option<string>)
    ensures !(token.Some? && token.value != "") ==> target == Some("/login") && deliveryName.None?
    ensures token.Some? && token.value != "" ==> target.None?
    ensures token.Some? && token.value != "" && profile.Some? ==>
      deliveryName == Some(FullName(profile.value.firstName, profile.value.lastName, profile.value.username))
    ensures profile.None? ==> deliveryName.None?
  {
    if !(token.Some? && token.value != "") {
      return Some("/login"), None;
    }
    target := None;
    deliveryName := None;
    if profile.Some? {
      deliveryName := Some(FullName(profile.value.firstName, profile.value.lastName, profile.value.username));
    }
  }
}
